// What the completion gate of a `daily_sync` scan proves about the feeds, in every run.
module CompletionGate {
  import opened Catalog
  import opened JobQueue
  import opened ScanQuiescence

  function PageBound(jobs: seq<Job<Payload>>): nat {
    if jobs == [] then 0
    else
      var rest := PageBound(jobs[1..]);
      if jobs[0].payload.Changes? && jobs[0].payload.page > rest then jobs[0].payload.page else rest
  }

  lemma {:induction false} PageBoundIsUpper(jobs: seq<Job<Payload>>, i: nat)
    requires i < |jobs| && jobs[i].payload.Changes?
    ensures jobs[i].payload.page <= PageBound(jobs)
  {
    if i > 0 {
      assert jobs[1..][i - 1] == jobs[i];
      PageBoundIsUpper(jobs[1..], i - 1);
    }
  }

  /** Walking the feed from a submitted page ends in a last page or in a page that never succeeded. */
  lemma {:induction false} FeedEnds(jobs: seq<Job<Payload>>, media: Media, span: Window, page: nat)
    requires SuccessorsExist(jobs) && page >= 1 && HasPage(jobs, media, page, span)
    requires forall q: nat :: 1 <= q < page ==> PageDone(jobs, media, q, span) && !LastPage(jobs, media, q, span)
    ensures FeedComplete(jobs, media, span) || exists p: nat :: BlockedAt(jobs, media, span, p)
    decreases PageBound(jobs) + 1 - page
  {
    var i :| 0 <= i < |jobs| && jobs[i].payload.Changes? && jobs[i].payload.media == media
             && jobs[i].payload.page == page && jobs[i].payload.span == span;
    PageBoundIsUpper(jobs, i);
    if !PageDone(jobs, media, page, span) {
      assert BlockedAt(jobs, media, span, page);
    } else if !LastPage(jobs, media, page, span) {
      var total: nat :| PageSucceeded(jobs, media, page, span, total);
      assert total > page;
      FeedEnds(jobs, media, span, page + 1);
    }
  }

  lemma CompleteOrBlocked(jobs: seq<Job<Payload>>, media: Media, span: Window)
    requires SuccessorsExist(jobs) && HasPage(jobs, media, 1, span)
    ensures FeedComplete(jobs, media, span) <==> !exists p: nat :: BlockedAt(jobs, media, span, p)
  {
    FeedEnds(jobs, media, span, 1);
    if FeedComplete(jobs, media, span) {
      var n: nat :| n >= 1 && LastPage(jobs, media, n, span)
                    && forall p: nat :: 1 <= p <= n ==> PageDone(jobs, media, p, span);
      forall p: nat ensures !BlockedAt(jobs, media, span, p) {
        if BlockedAt(jobs, media, span, p) {
          assert false;
        }
      }
    }
  }

  lemma BlockedIsOutOfSight(jobs: seq<Job<Payload>>, media: Media, span: Window, page: nat, seen: nat, root: nat)
    requires Settled(jobs, seen) && Resolved(jobs, seen, root)
    requires BlockedAt(jobs, media, span, page)
    ensures OutOfGateSight(jobs, media, page, span, seen, root)
  {
    forall i | 0 <= i < |jobs| && jobs[i].payload.Changes? && jobs[i].payload.media == media
               && jobs[i].payload.page == page && jobs[i].payload.span == span
               && i < seen && jobs[i].createdAt >= root && !jobs[i].status.Cancelled?
      ensures false
    {
      if jobs[i].status.DeadLetter? {
        assert Recovered(jobs, jobs[i]);
        var k :| 0 <= k < |jobs| && jobs[k].payload == jobs[i].payload && jobs[k].key == jobs[i].key
                 && jobs[k].status.Succeeded? && jobs[k].finishedAt > jobs[i].finishedAt;
        assert PageSucceeded(jobs, media, page, span, jobs[k].result);
      } else {
        assert jobs[i].status.Succeeded?;
        assert PageSucceeded(jobs, media, page, span, jobs[i].result);
      }
    }
  }

  /** The execution of `worker` is about to advance the watermark for the feeds of its completion job. */
  ghost predicate Advancing(s: State, worker: nat, media: Media, span: Window) {
    && worker in s.runs && s.runs[worker].pc.Advance? && s.runs[worker].job < |s.jobs|
    && s.jobs[s.runs[worker].job].payload.Completion?
    && media in s.jobs[s.runs[worker].job].payload.mediaTypes
    && s.jobs[s.runs[worker].job].payload.span == span
  }

  /**
   * Why an advancing watermark can cover an unfinished feed: the page where the feed is stuck has only jobs that the
   * gate could not see: created before the latest root, submitted after the gate's first read, or cancelled.
   */
  lemma GateMissesOnlyTheUnseen(s: State, worker: nat, media: Media, span: Window)
    requires Reachable(s) && Advancing(s, worker, media, span) && !FeedComplete(s.jobs, media, span)
    ensures exists p: nat :: BlockedAt(s.jobs, media, span, p)
                             && OutOfGateSight(s.jobs, media, p, span, s.runs[worker].pc.seen, s.runs[worker].pc.root)
  {
    var actions :| Execute(actions) == Some(s);
    ReachableInv(actions);
    var run := s.runs[worker];
    assert RunOk(s.jobs, run);
    CompleteOrBlocked(s.jobs, media, span);
    var p: nat :| BlockedAt(s.jobs, media, span, p);
    BlockedIsOutOfSight(s.jobs, media, span, p, run.pc.seen, run.pc.root);
  }

  predicate PageOf(p: Payload, media: Media, span: Window) {
    p.Changes? && p.media == media && p.span == span
  }

  /** No page job of the feed was cancelled. */
  predicate Uncancelled(jobs: seq<Job<Payload>>, media: Media, span: Window) {
    forall i :: 0 <= i < |jobs| && PageOf(jobs[i].payload, media, span) ==> !jobs[i].status.Cancelled?
  }

  /** No page job of the feed was submitted after the gate's first read. */
  ghost predicate Untorn(s: State, worker: nat, media: Media, span: Window)
    requires Advancing(s, worker, media, span)
  {
    forall i :: 0 <= i < |s.jobs| && PageOf(s.jobs[i].payload, media, span) ==> i < s.runs[worker].pc.seen
  }

  /**
   * Sound quiescence in every run: when the page jobs of the feed all date from the latest root or later, none was
   * cancelled and none was submitted between the gate's two reads, an advancing watermark means the feed was read to
   * its end.
   */
  lemma QuiescenceIsSound(s: State, worker: nat, media: Media, span: Window)
    requires Reachable(s) && Advancing(s, worker, media, span) && Untorn(s, worker, media, span)
    requires Uncancelled(s.jobs, media, span)
    requires forall i :: 0 <= i < |s.jobs| && PageOf(s.jobs[i].payload, media, span) ==>
               s.jobs[i].createdAt >= s.runs[worker].pc.root
    ensures FeedComplete(s.jobs, media, span)
  {
    if !FeedComplete(s.jobs, media, span) { GateMissesOnlyTheUnseen(s, worker, media, span); }
  }

  /**
   * What the gate would need: one read that finds no active ingest work and no unrecovered dead letter of
   * any age proves every feed of every submitted completion job finished, in every reachable state, unless one of its
   * pages was cancelled.
   */
  lemma AtomicAgelessGateIsSound(s: State, i: nat, media: Media)
    requires Reachable(s) && !ActiveWork(s.jobs) && !UnresolvedFailures(s.jobs, 0)
    requires i < |s.jobs| && s.jobs[i].payload.Completion? && media in s.jobs[i].payload.mediaTypes
    requires Uncancelled(s.jobs, media, s.jobs[i].payload.span)
    ensures FeedComplete(s.jobs, media, s.jobs[i].payload.span)
  {
    var actions :| Execute(actions) == Some(s);
    ReachableInv(actions);
    var span := s.jobs[i].payload.span;
    CompleteOrBlocked(s.jobs, media, span);
    if !FeedComplete(s.jobs, media, span) {
      var p: nat :| BlockedAt(s.jobs, media, span, p);
      BlockedIsOutOfSight(s.jobs, media, span, p, |s.jobs|, 0);
    }
  }
}
