/** The sweep that deletes attachment files nobody refers to, while the
    application goes on saving, removing and deduplicating messages. The
    sweep pages through the messages from a temporary table that triggers
    refill with every row inserted or updated; a file that is about to be
    reused by another message is protected by a claim until that message has
    been saved. */
module OrphanSweep {
  import opened Options

  type Path = string
  type RowId = nat

  const CHUNK: nat := 1000

  /** One row of `attachments_protected_from_deletion`. */
  datatype Claim = Claim(path: Path, token: nat)

  datatype Phase = Paging | Paged | Swept

  /** `listed` is what was on disk at the start, `orphans` what is left of it.
      `unread` are the rows saved since a page last returned them: the
      temporary table, for as long as that table exists. */
  datatype State = State(rows: map<RowId, set<Path>>, claims: set<Claim>, listed: set<Path>,
                         unread: set<RowId>, orphans: set<Path>, phase: Phase)

  datatype Event =
    | Save(row: RowId, files: set<Path>, reuses: set<Claim>)  // one transaction
    | Remove(row: RowId)
    | Reuse(row: RowId, files: set<Path>, token: nat)         // getAndProtectExistingAttachmentPath
    | ReadPage(taken: set<RowId>)
    | ReadClaims

  ghost predicate Referenced(s: State, p: Path) { exists r :: r in s.rows && p in s.rows[r] }

  ghost predicate Claimed(s: State, p: Path) { exists c :: c in s.claims && c.path == p }

  ghost predicate InUse(s: State, p: Path) { Referenced(s, p) || Claimed(s, p) }

  /** A message can name a file that was written after the listing, that some
      message names already, or that the saver holds a claim on. */
  ghost predicate MayName(s: State, p: Path, reuses: set<Claim>) {
    p !in s.listed || Referenced(s, p) || exists c :: c in reuses && c in s.claims && c.path == p
  }

  ghost predicate CanStep(s: State, e: Event) {
    match e
    case Save(_, files, reuses) => forall p :: p in files ==> MayName(s, p, reuses)
    case Remove(_) => true
    case Reuse(row, files, _) => row in s.rows && files <= s.rows[row]
    case ReadPage(taken) =>
      s.phase == Paging && taken <= s.unread && |taken| == if |s.unread| < CHUNK then |s.unread| else CHUNK
    case ReadClaims => s.phase == Paged
  }

  /** What one page reports: the files of the rows that are still there. */
  function FilesOf(rows: map<RowId, set<Path>>, taken: set<RowId>): set<Path> {
    set r, p | r in taken && r in rows && p in rows[r] :: p
  }

  function Step(s: State, e: Event): State {
    match e
    case Save(row, files, reuses) =>
      s.(rows := s.rows[row := files], claims := s.claims - reuses, unread := s.unread + {row})
    case Remove(row) => s.(rows := s.rows - {row})
    case Reuse(_, files, token) => s.(claims := s.claims + set p | p in files :: Claim(p, token))
    case ReadPage(taken) =>
      s.(orphans := s.orphans - FilesOf(s.rows, taken), unread := s.unread - taken,
         phase := if |taken| < CHUNK then Paged else Paging)
    case ReadClaims => s.(orphans := s.orphans - set c | c in s.claims :: c.path, phase := Swept)
  }

  ghost predicate IsRun(s: State, es: seq<Event>)
    decreases |es|
  {
    es == [] || (CanStep(s, es[0]) && IsRun(Step(s, es[0]), es[1..]))
  }

  ghost function Run(s: State, es: seq<Event>): State
    decreases |es|
  {
    if es == [] then s else Run(Step(s, es[0]), es[1..])
  }

  /** The temporary table is filled in the transaction of the first page. */
  ghost predicate Start(s: State) { s.orphans <= s.listed && s.unread == s.rows.Keys && s.phase == Paging }

  /** Until the claims are read, only unread rows name a candidate. */
  ghost predicate Inv(s: State) {
    && s.orphans <= s.listed
    && (s.phase != Swept ==> forall r, p :: r in s.rows && p in s.rows[r] && p in s.orphans ==> r in s.unread)
  }

  lemma StepKeepsInv(s: State, e: Event)
    requires Inv(s) && CanStep(s, e)
    ensures Inv(Step(s, e))
  {
  }

  lemma {:induction false} RunKeepsInv(s: State, es: seq<Event>)
    requires Inv(s) && IsRun(s, es)
    ensures Inv(Run(s, es))
    decreases |es|
  {
    if es != [] {
      StepKeepsInv(s, es[0]);
      RunKeepsInv(Step(s, es[0]), es[1..]);
    }
  }

  /** Whatever was saved, removed or reused between the pages: when the last
      page has been read, no message names a file that is still a candidate. */
  lemma LastPageLeavesNoReferenced(s: State, es: seq<Event>, taken: set<RowId>, p: Path)
    requires Start(s) && IsRun(s, es) && CanStep(Run(s, es), ReadPage(taken))
    requires var s' := Step(Run(s, es), ReadPage(taken)); s'.phase == Paged && p in s'.orphans
    ensures !Referenced(Step(Run(s, es), ReadPage(taken)), p)
  {
    RunKeepsInv(s, es);
    var before := Run(s, es);
    SubsetOfSameSize(taken, before.unread);
    StepKeepsInv(before, ReadPage(taken));
  }

  /** And it is the last page as soon as fewer than 1000 rows were left: a page
      reports 1000 rows, or all there are. */
  lemma PagesAreFull(s: State, taken: set<RowId>)
    requires CanStep(s, ReadPage(taken))
    ensures |taken| == (if |s.unread| < 1000 then |s.unread| else 1000)
    ensures Step(s, ReadPage(taken)).phase == if |s.unread| < 1000 then Paged else Paging
    ensures Step(s, ReadPage(taken)).unread == s.unread - taken
    ensures forall p :: p in Step(s, ReadPage(taken)).orphans <==>
              p in s.orphans && forall r :: r in taken && r in s.rows ==> p !in s.rows[r]
  {
  }

  lemma SubsetOfSameSize<T>(a: set<T>, b: set<T>)
    requires a <= b && |a| == |b|
    ensures a == b
  {
    assert b == a + (b - a);
    assert |b - a| == 0;
  }

  // -------------------------------------------------------- unused for good

  lemma UnusedStaysUnused(s: State, e: Event, p: Path)
    requires CanStep(s, e) && p in s.listed && !InUse(s, p)
    ensures var s' := Step(s, e); p in s'.listed && !InUse(s', p) && (p in s.orphans <==> p in s'.orphans)
  {
    if e.Save? {
      assert p in e.files ==> MayName(s, p, e.reuses);
    }
  }

  /** A listed file that nobody uses is never used again, and stays a
      candidate to the end: the sweep misses no garbage. */
  lemma {:induction false} UnusedIsSwept(s: State, es: seq<Event>, p: Path)
    requires IsRun(s, es) && p in s.listed && !InUse(s, p)
    ensures var s' := Run(s, es); !InUse(s', p) && (p in s.orphans <==> p in s'.orphans)
    decreases |es|
  {
    if es != [] {
      UnusedStaysUnused(s, es[0], p);
      UnusedIsSwept(Step(s, es[0]), es[1..], p);
    }
  }

  // ----------------------------------------------------- when it is harmless

  /** Nothing the sweep deletes after reading the claims now is ever used. */
  ghost predicate HarmlessNow(s: State)
    requires s.phase == Paged
  {
    var swept := Step(s, ReadClaims);
    forall es, p :: IsRun(swept, es) && p in swept.orphans ==> !InUse(Run(swept, es), p)
  }

  /** One more page would report nothing but claimed files. */
  ghost predicate NothingToReport(s: State) {
    forall r, p :: r in s.unread && r in s.rows && p in s.rows[r] && p in s.orphans ==> Claimed(s, p)
  }

  /** Reading the claims is harmless exactly when no message saved since the
      last page names an unclaimed candidate. */
  lemma HarmlessExactlyWhen(s: State)
    requires Inv(s) && s.phase == Paged
    ensures HarmlessNow(s) <==> NothingToReport(s)
  {
    var swept := Step(s, ReadClaims);
    if NothingToReport(s) {
      forall es, p | IsRun(swept, es) && p in swept.orphans ensures !InUse(Run(swept, es), p) {
        assert !InUse(swept, p);
        UnusedIsSwept(swept, es, p);
      }
    } else {
      var r, p :| r in s.unread && r in s.rows && p in s.rows[r] && p in s.orphans && !Claimed(s, p);
      assert IsRun(swept, []) && p in swept.orphans && Referenced(Run(swept, []), p);
    }
  }

  /** The step saves a message that gives up its claim on a candidate. */
  predicate GivesUpClaim(s: State, e: Event) {
    e.Save? && exists c :: c in e.reuses && c in s.claims && c.path in s.orphans
  }

  ghost predicate NoClaimGivenUp(s: State, es: seq<Event>)
    decreases |es|
  {
    es == [] || (!GivesUpClaim(s, es[0]) && NoClaimGivenUp(Step(s, es[0]), es[1..]))
  }

  ghost predicate NoneReferenced(s: State) { forall p :: p in s.orphans ==> !Referenced(s, p) }

  lemma QuietStep(s: State, e: Event)
    requires Inv(s) && NoneReferenced(s) && CanStep(s, e) && !GivesUpClaim(s, e) && s.phase == Paged
    ensures NoneReferenced(Step(s, e))
  {
    if e.Save? {
      forall p | p in s.orphans ensures p !in e.files {
        assert p in e.files ==> MayName(s, p, e.reuses);
      }
    }
  }

  lemma {:induction false} QuietWindow(s: State, es: seq<Event>)
    requires Inv(s) && NoneReferenced(s) && s.phase == Paged
    requires IsRun(s, es) && NoClaimGivenUp(s, es) && Run(s, es).phase == Paged
    ensures NoneReferenced(Run(s, es))
    decreases |es|
  {
    if es != [] {
      var s' := Step(s, es[0]);
      if s'.phase == Swept {
        SweptStays(s', es[1..]);
      } else {
        QuietStep(s, es[0]);
        StepKeepsInv(s, es[0]);
        QuietWindow(s', es[1..]);
      }
    }
  }

  lemma {:induction false} SweptStays(s: State, es: seq<Event>)
    requires s.phase == Swept && IsRun(s, es)
    ensures Run(s, es).phase == Swept && Run(s, es).orphans == s.orphans
    decreases |es|
  {
    if es != [] { SweptStays(Step(s, es[0]), es[1..]); }
  }

  /** A whole sweep: `before` up to the last page, `window` between that page
      and the reading of the claims, `after` for as long as one likes. If no
      claim on a candidate is given up in the window, no deleted file is used
      then or later. */
  lemma SweepIsSafe(s: State, before: seq<Event>, taken: set<RowId>, window: seq<Event>, after: seq<Event>, p: Path)
    requires Start(s) && IsRun(s, before) && CanStep(Run(s, before), ReadPage(taken))
    requires var paged := Step(Run(s, before), ReadPage(taken));
             && paged.phase == Paged && IsRun(paged, window) && Run(paged, window).phase == Paged
                && NoClaimGivenUp(paged, window)
             && var swept := Step(Run(paged, window), ReadClaims); IsRun(swept, after) && p in swept.orphans
    ensures var swept := Step(Run(Step(Run(s, before), ReadPage(taken)), window), ReadClaims);
            && p in Run(swept, after).orphans && !InUse(Run(swept, after), p)
  {
    var paged := Step(Run(s, before), ReadPage(taken));
    RunKeepsInv(s, before);
    StepKeepsInv(Run(s, before), ReadPage(taken));
    forall q | q in paged.orphans ensures !Referenced(paged, q) { LastPageLeavesNoReferenced(s, before, taken, q); }
    QuietWindow(paged, window);
    RunKeepsInv(paged, window);
    UnusedAfterClaims(Run(paged, window), p);
    UnusedIsSwept(Step(Run(paged, window), ReadClaims), after, p);
  }

  lemma UnusedAfterClaims(s: State, p: Path)
    requires Inv(s) && NoneReferenced(s) && p in Step(s, ReadClaims).orphans
    ensures p in s.listed && !InUse(Step(s, ReadClaims), p)
  {
    assert !Referenced(s, p);
  }

  /** The window is real. A file is claimed for reuse, the only message that
      names it is removed, the last page passes, the reusing message is saved,
      and only then are the claims read: the file is deleted under a message
      that names it. */
  lemma FileInUseIsDeleted(p: Path)
    ensures var s := State(map[1 := {p}], {}, {p}, {1}, {p}, Paging);
            var es := [Reuse(1, {p}, 7), Remove(1), ReadPage({1}), Save(2, {p}, {Claim(p, 7)}), ReadClaims];
            && Start(s) && IsRun(s, es)
            && var s' := Run(s, es); s'.phase == Swept && p in s'.orphans && Referenced(s', p)
  {
    var s := State(map[1 := {p}], {}, {p}, {1}, {p}, Paging);
    var s1 := State(map[1 := {p}], {Claim(p, 7)}, {p}, {1}, {p}, Paging);
    var s2 := State(map[], {Claim(p, 7)}, {p}, {1}, {p}, Paging);
    var s3 := State(map[], {Claim(p, 7)}, {p}, {}, {p}, Paged);
    var s4 := State(map[2 := {p}], {}, {p}, {2}, {p}, Paged);
    var save := Save(2, {p}, {Claim(p, 7)});
    FirstThree(p, s, s1, s2, s3);
    assert CanStep(s3, save) by { assert Claim(p, 7) in s3.claims; }
    assert Step(s3, save) == s4;
    assert Step(s4, ReadClaims) == s4.(phase := Swept);
    assert IsRun(s4, [ReadClaims]) && Run(s4, [ReadClaims]) == s4.(phase := Swept);
    Prepend(s3, save, [ReadClaims]);
    Prepend(s2, ReadPage({1}), [save, ReadClaims]);
    Prepend(s1, Remove(1), [ReadPage({1}), save, ReadClaims]);
    Prepend(s, Reuse(1, {p}, 7), [Remove(1), ReadPage({1}), save, ReadClaims]);
    assert p in s4.rows[2];
  }

  lemma FirstThree(p: Path, s: State, s1: State, s2: State, s3: State)
    requires s == State(map[1 := {p}], {}, {p}, {1}, {p}, Paging)
    requires s1 == s.(claims := {Claim(p, 7)}) && s2 == s1.(rows := map[]) && s3 == s2.(unread := {}, phase := Paged)
    ensures CanStep(s, Reuse(1, {p}, 7)) && Step(s, Reuse(1, {p}, 7)) == s1
    ensures CanStep(s1, Remove(1)) && Step(s1, Remove(1)) == s2
    ensures CanStep(s2, ReadPage({1})) && Step(s2, ReadPage({1})) == s3
  {
    assert |{1}| == 1;
    assert s1.rows - {1} == map[];
    assert FilesOf(s2.rows, {1}) == {};
  }

  lemma Prepend(s: State, e: Event, es: seq<Event>)
    requires CanStep(s, e) && IsRun(Step(s, e), es)
    ensures IsRun(s, [e] + es) && Run(s, [e] + es) == Run(Step(s, e), es)
  {
    assert ([e] + es)[1..] == es;
  }

  // --------------------------------------------------- the code of the sweep

  /** The reply to one `getKnownMessageAttachments`; `done` is the cursor's
      flag, and None is a missing cursor. */
  datatype Page = Page(attachments: seq<Path>, downloads: seq<Path>, done: Option<bool>)

  function Last(p: Page): bool { p.done != Some(false) }

  /** How many of the replies are read; None when a reply before the last page
      is an error. */
  function PagesRead(replies: seq<Option<Page>>): Option<nat>
    decreases |replies|
  {
    if replies == [] || replies[0].None? then None
    else if Last(replies[0].value) then Some(1)
    else
      var rest := PagesRead(replies[1..]);
      if rest.None? then None else Some(1 + rest.value)
  }

  /** Some page among the first `n` names the file. */
  predicate Named(replies: seq<Option<Page>>, n: nat, p: Path, download: bool)
    requires n <= |replies|
  {
    exists k :: 0 <= k < n && replies[k].Some? &&
      p in if download then replies[k].value.downloads else replies[k].value.attachments
  }

  /** The loops that delete what is known from the set of candidates. */
  method DeleteKnown(orphans: set<Path>, known: seq<Path>) returns (left: set<Path>, missing: nat)
    ensures forall p :: p in left <==> p in orphans && p !in known
    ensures missing == 0 ==> forall p :: p in known ==> p in orphans
    ensures |left| + |known| == |orphans| + missing
  {
    left, missing := orphans, 0;
    var i := 0;
    while i < |known|
      invariant i <= |known|
      invariant forall p :: p in left <==> p in orphans && p !in known[..i]
      invariant missing == 0 ==> forall p :: p in known[..i] ==> p in orphans
      invariant |left| + i == |orphans| + missing
    {
      if known[i] in left { left := left - {known[i]}; } else { missing := missing + 1; }
      i := i + 1;
    }
    assert known[..i] == known;
  }

  lemma {:induction false} PagesReadFrom(replies: seq<Option<Page>>, i: nat)
    requires i < |replies| && forall k :: 0 <= k < i ==> replies[k].Some? && !Last(replies[k].value)
    ensures PagesRead(replies) ==
            if replies[i].None? then None
            else if Last(replies[i].value) then Some(i + 1)
            else var rest := PagesRead(replies[i + 1..]); if rest.None? then None else Some(i + 1 + rest.value)
    decreases i
  {
    if i > 0 {
      assert replies[1..][i..] == replies[i + 1..];
      assert forall k :: 0 <= k < i - 1 ==> replies[1..][k] == replies[k + 1];
      PagesReadFrom(replies[1..], i - 1);
    }
  }

  /** Reading goes on exactly while a reply has a cursor that is not done: `n`
      pages are read if the first `n - 1` replies have one and the last has not,
      and none if an error comes before that. */
  lemma {:induction false} PagesReadExactlyWhen(replies: seq<Option<Page>>, n: nat)
    requires 0 < n
    ensures PagesRead(replies) == Some(n) <==>
            && n <= |replies|
            && (forall k :: 0 <= k < n - 1 ==> replies[k].Some? && replies[k].value.done == Some(false))
            && replies[n - 1].Some? && (replies[n - 1].value.done.None? || replies[n - 1].value.done == Some(true))
    decreases |replies|
  {
    if replies != [] && replies[0].Some? && replies[0].value.done == Some(false) {
      var rest := replies[1..];
      assert forall k :: 0 <= k < |rest| ==> rest[k] == replies[k + 1];
      if n > 1 {
        PagesReadExactlyWhen(rest, n - 1);
        assert forall k :: 0 < k < |replies| ==> replies[k] == rest[k - 1];
      } else {
        SomePageIsRead(rest);
      }
    } else if replies != [] && replies[0].Some? {
      var done := replies[0].value.done;
      assert done.None? || done.value;
      assert n > 1 ==> replies[0].value.done != Some(false);
    }
  }

  lemma SomePageIsRead(replies: seq<Option<Page>>)
    ensures PagesRead(replies) != Some(0)
  {
  }

  /** `deleteOrphanedAttachments`, given what its reads answer: `finished` and
      `claims` are the reads after the paging, and `gone` the files that no
      longer exist. Either every read succeeds and the deleted files are
      exactly the candidates that no page and no claim names and that still
      exist, or nothing is deleted. */
  method DeleteOrphaned(attachments: set<Path>, downloads: set<Path>, replies: seq<Option<Page>>,
                        finished: bool, claims: Option<seq<Path>>, gone: set<Path>)
    returns (deleted: set<Path>, deletedDownloads: set<Path>)
    ensures var n := PagesRead(replies);
            if n.None? || !finished || claims.None? then deleted == {} && deletedDownloads == {}
            else
              && n.value <= |replies| && (forall k :: 0 <= k < n.value ==> replies[k].Some?)
              && (forall p :: p in deleted <==>
                   && p in attachments && p !in claims.value && p !in gone
                   && forall k :: 0 <= k < n.value ==> p !in replies[k].value.attachments)
              && (forall p :: p in deletedDownloads <==>
                   p in downloads && forall k :: 0 <= k < n.value ==> p !in replies[k].value.downloads)
  {
    var left, leftDownloads := attachments, downloads;
    var i, last, missing := 0, false, 0;
    assert replies[0..] == replies;
    while !last
      invariant i <= |replies|
      invariant !last ==> forall k :: 0 <= k < i ==> replies[k].Some? && !Last(replies[k].value)
      invariant last ==> PagesRead(replies) == Some(i)
      invariant forall k :: 0 <= k < i ==> replies[k].Some?
      invariant forall p :: p in left <==> p in attachments && !Named(replies, i, p, false)
      invariant forall p :: p in leftDownloads <==> p in downloads && !Named(replies, i, p, true)
      decreases if last then 0 else 1 + |replies| - i
    {
      if i == |replies| {
        AllReadNoneLast(replies);
        return {}, {};
      }
      PagesReadFrom(replies, i);
      if replies[i].None? { return {}, {}; }
      var page := replies[i].value;
      left, missing := DeleteKnown(left, page.attachments);
      leftDownloads, missing := DeleteKnown(leftDownloads, page.downloads);
      last := Last(page);
      i := i + 1;
    }
    if !finished || claims.None? { return {}, {}; }
    left, missing := DeleteKnown(left, claims.value);
    return left - gone, leftDownloads;
  }

  lemma {:induction false} AllReadNoneLast(replies: seq<Option<Page>>)
    requires forall k :: 0 <= k < |replies| ==> replies[k].Some? && !Last(replies[k].value)
    ensures PagesRead(replies).None?
    decreases |replies|
  {
    if replies != [] { AllReadNoneLast(replies[1..]); }
  }
}
