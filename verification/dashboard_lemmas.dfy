/** What the dashboard's handlers guarantee, stated over the step functions
    of module `Dashboard`. */
module DashboardProperties {
  import opened Values
  import opened Api
  import opened Dashboard

  /** The catalog prices: face-swap 1, avatar 3, image-to-video 5 credits. */
  lemma CatalogCosts()
    ensures Cost(FaceSwap) == 1 && Cost(Avatar) == 3 && Cost(ImageToVideo) == 5
  {
  }

  /** A type missing from a catalog, or priced at 0, costs 1; with no
      negative prices every type costs at least 1. */
  lemma CostFallsBackToOne(catalog: seq<CatalogEntry>, t: TransformationType)
    ensures (forall i :: 0 <= i < |catalog| ==> catalog[i].id != t) ==> RequiredCredits(catalog, t) == 1
    ensures (forall i :: 0 <= i < |catalog| ==> catalog[i].credits >= 0) ==> RequiredCredits(catalog, t) >= 1
  {
  }

  /** A refused submission issues no request and changes no state, whatever
      the backend would have answered. */
  lemma RejectionChangesNothing(s: DashState, ack: ApiResponse<Job>)
    requires Check(s).Some?
    ensures Process(s, ack) == Transition(s, Rejected(Check(s).value))
  {
  }

  /** A face-swap without a truthy target image is refused whatever the
      balance: for a missing source first, else for the missing target. */
  lemma FaceSwapNeedsTarget(s: DashState, ack: ApiResponse<Job>)
    requires s.selected == FaceSwap && !Present(s.targetImage)
    ensures Process(s, ack).next == s
    ensures Process(s, ack).outcome.Rejected?
    ensures Process(s, ack).outcome.reason ==
              if Present(s.sourceImage) then NoTargetImage else NoSourceImage
  {
  }

  /** A balance below the cost never reaches the network. */
  lemma CreditGate(s: DashState, ack: ApiResponse<Job>)
    requires s.credits < Cost(s.selected)
    ensures Process(s, ack).next == s
    ensures Process(s, ack).outcome.Rejected?
  {
  }

  /** An acknowledged submission charges the type's cost exactly once, makes
      the returned job current, starts an interval polling it and leaves the
      history alone; the balance it leaves is never negative. */
  lemma SubmitChargesOnce(s: DashState, ack: ApiResponse<Job>)
    requires Check(s).None? && ack.success && ack.data.Some?
    ensures var t := Process(s, ack);
            t.outcome == Submitted(PayloadOf(s), ack.data.value) &&
            t.next.credits == s.credits - Cost(s.selected) &&
            t.next.credits >= 0 &&
            t.next.currentJob == ack.data &&
            t.next.jobs == s.jobs &&
            t.next.isProcessing &&
            t.next.loops == s.loops + [ack.data.value.id]
  {
  }

  /** A refused or failed submission request leaves balance, current job,
      history and intervals unchanged, clears the processing flag, and shows
      the client's error if truthy, else the generic text. */
  lemma SubmitFailureKeepsState(s: DashState, ack: ApiResponse<Job>)
    requires Check(s).None? && !(ack.success && ack.data.Some?)
    ensures var t := Process(s, ack);
            t.next == s.(isProcessing := false) &&
            t.outcome.SubmitFailed? &&
            t.outcome.message == if Present(ack.error) then ack.error.value else GenericFailure
  {
  }

  /** A request the backend refuses shows the backend's own (never empty)
      error text; only an exception with an empty message shows the generic
      text. */
  lemma SubmitFailureMessage(s: DashState, f: FetchOutcome<Job>)
    requires Check(s).None? && !f.Replied?
    ensures f.Refused? ==>
              Process(s, Normalise(f)).outcome.message == RefusalMessage(f.errorField, f.messageField)
    ensures f.Threw? ==>
              Process(s, Normalise(f)).outcome.message ==
                if ThrownMessage(f.thrown) != "" then ThrownMessage(f.thrown) else GenericFailure
  {
  }

  /** The request carries the source image, and the target image only when
      it is truthy. */
  lemma TargetForwardedOnlyWhenPresent(s: DashState, ack: ApiResponse<Job>)
    requires Check(s).None?
    ensures var o := Process(s, ack).outcome;
            !o.Rejected? &&
            o.payload.kind == s.selected &&
            o.payload.sourceImage == s.sourceImage.value &&
            o.payload.targetImage == if Present(s.targetImage) then s.targetImage else None
  {
  }

  /** Submitting while an interval still runs keeps that interval running
      beside the new one: nothing cancels it. */
  lemma ResubmitKeepsEarlierIntervals(s: DashState, ack: ApiResponse<Job>)
    requires Check(s).None? && ack.success && ack.data.Some?
    ensures var next := Process(s, ack).next;
            |next.loops| == |s.loops| + 1 && next.loops[..|s.loops|] == s.loops
  {
  }

  /** A tick whose status request failed changes nothing; a successful one
      makes the returned job current, whatever its status, and never touches
      the balance. */
  lemma TickReplacesCurrentJob(s: DashState, k: nat, resp: ApiResponse<Job>)
    requires k < |s.loops|
    ensures !(resp.success && resp.data.Some?) ==> Tick(s, k, resp) == s
    ensures resp.success && resp.data.Some? ==> Tick(s, k, resp).currentJob == resp.data
    ensures Tick(s, k, resp).credits == s.credits
  {
  }

  /** A `completed` response stops its interval, clears the processing flag
      and puts exactly that job at the head of the history. */
  lemma TickCompleted(s: DashState, k: nat, resp: ApiResponse<Job>)
    requires k < |s.loops| && resp.success && resp.data.Some? && resp.data.value.status == Completed
    ensures var t := Tick(s, k, resp);
            t.loops == RemoveAt(s.loops, k) && !t.isProcessing &&
            t.jobs == [resp.data.value] + s.jobs && |t.jobs| == |s.jobs| + 1 &&
            t.credits == s.credits
  {
  }

  /** A `failed` response stops its interval and clears the processing flag;
      history and balance stay as they were (no refund). */
  lemma TickFailed(s: DashState, k: nat, resp: ApiResponse<Job>)
    requires k < |s.loops| && resp.success && resp.data.Some? && resp.data.value.status == Failed
    ensures var t := Tick(s, k, resp);
            t.loops == RemoveAt(s.loops, k) && !t.isProcessing &&
            t.jobs == s.jobs && t.credits == s.credits
  {
  }

  /** Any other successful response keeps the interval running. */
  lemma TickKeepsRunning(s: DashState, k: nat, resp: ApiResponse<Job>)
    requires k < |s.loops| && !Stops(resp)
    ensures Tick(s, k, resp) == s.(currentJob := if resp.success && resp.data.Some? then resp.data else s.currentJob)
  {
  }

  /** The recorded status can move backwards: a `pending` answer after a
      `processing` one replaces it. */
  lemma StatusMayRegress(s: DashState, job: Job)
    requires |s.loops| > 0 && job.status == Processing
    ensures var earlier := job.(status := Pending);
            var t1 := Tick(s, 0, ApiResponse(true, Some(job), None));
            var t2 := Tick(t1, 0, ApiResponse(true, Some(earlier), None));
            t1.currentJob.value.status == Processing && t2.currentJob.value.status == Pending
  {
  }

  /** The interval issues one query per response up to and including the
      first one that stops it, and none after. */
  lemma {:induction false} ConsumedIsFirstStop(rs: seq<ApiResponse<Job>>)
    ensures forall i :: 0 <= i < Consumed(rs) - 1 ==> !Stops(rs[i])
    ensures Consumed(rs) < |rs| ==> 0 < Consumed(rs) && Stops(rs[Consumed(rs) - 1])
  {
    if rs != [] && !Stops(rs[0]) {
      ConsumedIsFirstStop(rs[1..]);
      assert forall i :: 0 < i < |rs| ==> rs[i] == rs[1..][i - 1];
    }
  }

  /** Responses after the one that stops the interval have no effect. */
  lemma {:induction false} PollAllIgnoresRest(s: DashState, k: nat, rs: seq<ApiResponse<Job>>)
    requires k < |s.loops|
    decreases |rs|
    ensures PollAll(s, k, rs) == PollAll(s, k, rs[..Consumed(rs)])
  {
    if rs != [] {
      var c := Consumed(rs);
      if Stops(rs[0]) {
        assert rs[..c] == [rs[0]];
      } else {
        var t := Tick(s, k, rs[0]);
        PollAllIgnoresRest(t, k, rs[1..]);
        assert rs[..c][0] == rs[0];
        assert rs[..c][1..] == rs[1..][..Consumed(rs[1..])];
      }
    }
  }

  /** Polling never charges or refunds credits and never touches the page's
      inputs. */
  lemma {:induction false} PollingKeepsCredits(s: DashState, k: nat, rs: seq<ApiResponse<Job>>)
    requires k < |s.loops|
    decreases |rs|
    ensures var f := PollAll(s, k, rs);
            f.credits == s.credits && f.selected == s.selected &&
            f.sourceImage == s.sourceImage && f.targetImage == s.targetImage
  {
    if rs != [] && !Stops(rs[0]) {
      PollingKeepsCredits(Tick(s, k, rs[0]), k, rs[1..]);
    }
  }

  /** The current job after ticks that stop nothing: the job of the last
      successful response, or `current` when none succeeded. */
  function LastReported(current: Option<Job>, rs: seq<ApiResponse<Job>>): Option<Job>
    decreases |rs|
  {
    if rs == [] then current
    else LastReported(if rs[0].success && rs[0].data.Some? then rs[0].data else current, rs[1..])
  }

  /** The end of a run of ticks: if a response stopped the interval, the
      interval is gone, processing is over, that job is current, and it heads
      the history exactly when it completed; otherwise the interval, the flag
      and the history are as they were, and the job last reported is current. */
  lemma {:induction false} PollAllOutcome(s: DashState, k: nat, rs: seq<ApiResponse<Job>>)
    requires k < |s.loops|
    decreases |rs|
    ensures var f := PollAll(s, k, rs);
            var c := Consumed(rs);
            if 0 < c && Stops(rs[c - 1]) then
              var job := rs[c - 1].data.value;
              f.loops == RemoveAt(s.loops, k) && !f.isProcessing && f.currentJob == Some(job) &&
              f.jobs == (if job.status == Completed then [job] + s.jobs else s.jobs)
            else
              f.loops == s.loops && f.isProcessing == s.isProcessing && f.jobs == s.jobs &&
              f.currentJob == LastReported(s.currentJob, rs)
  {
    if rs != [] && !Stops(rs[0]) {
      var t := Tick(s, k, rs[0]);
      PollAllOutcome(t, k, rs[1..]);
      assert Consumed(rs) == 1 + Consumed(rs[1..]);
      if 0 < Consumed(rs[1..]) {
        assert rs[Consumed(rs) - 1] == rs[1..][Consumed(rs[1..]) - 1];
      }
    }
  }

  /** The history grows by at most one job per interval, at its head. */
  lemma HistoryGrowsByAtMostOne(s: DashState, k: nat, rs: seq<ApiResponse<Job>>)
    requires k < |s.loops|
    ensures var f := PollAll(s, k, rs);
            f.jobs == s.jobs || (|f.jobs| == |s.jobs| + 1 && f.jobs[1..] == s.jobs && f.jobs[0].status == Completed)
  {
    PollAllOutcome(s, k, rs);
  }

  /** A file over 10 MiB is refused and the stored images stay as they were;
      a file of exactly 10 MiB is accepted. */
  lemma UploadSizeGuard(s: DashState, slot: Slot, size: nat, dataUrl: string)
    ensures size > 10 * 1024 * 1024 ==>
              UploadVerdictOf(Some(FileInfo(size, dataUrl))) == TooLarge &&
              Upload(s, slot, Some(FileInfo(size, dataUrl))) == s
    ensures size <= 10 * 1024 * 1024 ==> UploadVerdictOf(Some(FileInfo(size, dataUrl))) == Loaded
  {
  }

  /** An accepted file replaces the image of its own slot only; no file
      changes nothing. */
  lemma UploadReplacesOneSlot(s: DashState, slot: Slot, file: Option<FileInfo>)
    ensures file.None? ==> Upload(s, slot, file) == s
    ensures UploadVerdictOf(file) == Loaded ==>
              ImageAt(Upload(s, slot, file), slot) == Some(file.value.dataUrl) &&
              ImageAt(Upload(s, slot, file), if slot == Source then Target else Source) ==
                ImageAt(s, if slot == Source then Target else Source) &&
              Upload(s, slot, file).credits == s.credits &&
              Upload(s, slot, file).jobs == s.jobs &&
              Upload(s, slot, file).loops == s.loops
  {
  }

  /** On mount the backend's balance and history replace the local ones when
      their requests succeed with data, whatever the local values were. */
  lemma MountReplaces(s: DashState, c: ApiResponse<CreditsBody>, h: ApiResponse<seq<Job>>)
    ensures var m := Mounted(s, c, h);
            m.credits == (if c.success && c.data.Some? then c.data.value.credits else s.credits) &&
            m.jobs == (if h.success && h.data.Some? then h.data.value else s.jobs) &&
            m.loops == s.loops && m.currentJob == s.currentJob && m.isProcessing == s.isProcessing
  {
  }

  const Alice := User("u1", "alice@example.com", 5, "t0")

  function SampleJob(kind: TransformationType, status: JobStatus, output: Option<string>): Job
  {
    Job("j1", "u1", kind, status, "in.png", output, "t0", None)
  }

  function Answer(job: Job): ApiResponse<Job>
  {
    ApiResponse(true, Some(job), None)
  }

  /** A face-swap with balance 5 leaves balance 4 and a pending current job. */
  lemma ScenarioFaceSwap()
    ensures var s := Initial(Some(Alice)).(sourceImage := Some("src"), targetImage := Some("tgt"));
            var job := SampleJob(FaceSwap, Pending, None);
            var t := Process(s, Answer(job));
            t.next.credits == 4 && t.next.currentJob == Some(job) && t.next.loops == ["j1"]
  {
  }

  /** An avatar with balance 2 is refused and the balance stays 2. */
  lemma ScenarioAvatarShortOfCredits(ack: ApiResponse<Job>)
    ensures var s := Initial(Some(Alice.(credits := 2))).(selected := Avatar, sourceImage := Some("src"));
            var t := Process(s, ack);
            t.outcome == Rejected(InsufficientCredits) && t.next.credits == 2 && t.next.currentJob == None
  {
  }

  /** pending, processing, processing, completed with output X: four queries,
      the completed job is current and heads the history, polling stopped. */
  lemma ScenarioCompletes()
    ensures var s := Initial(Some(Alice)).(credits := 4, isProcessing := true, loops := ["j1"]);
            var done := SampleJob(FaceSwap, Completed, Some("X"));
            var rs := [Answer(SampleJob(FaceSwap, Pending, None)), Answer(SampleJob(FaceSwap, Processing, None)),
                       Answer(SampleJob(FaceSwap, Processing, None)), Answer(done)];
            var f := PollAll(s, 0, rs);
            Consumed(rs) == 4 && f.currentJob == Some(done) && f.jobs == [done] &&
            f.loops == [] && !f.isProcessing && f.credits == 4
  {
    var s := Initial(Some(Alice)).(credits := 4, isProcessing := true, loops := ["j1"]);
    var done := SampleJob(FaceSwap, Completed, Some("X"));
    var rs := [Answer(SampleJob(FaceSwap, Pending, None)), Answer(SampleJob(FaceSwap, Processing, None)),
               Answer(SampleJob(FaceSwap, Processing, None)), Answer(done)];
    assert Consumed(rs[3..]) == 1;
    assert Consumed(rs[1..]) == 3 by {
      assert rs[1..][1..] == rs[2..] && rs[2..][1..] == rs[3..];
    }
    PollAllOutcome(s, 0, rs);
    PollingKeepsCredits(s, 0, rs);
  }

  /** pending, failed: polling stops and the charged balance is not restored. */
  lemma ScenarioFails()
    ensures var s := Initial(Some(Alice)).(credits := 4, isProcessing := true, loops := ["j1"]);
            var failed := SampleJob(FaceSwap, Failed, None);
            var rs := [Answer(SampleJob(FaceSwap, Pending, None)), Answer(failed)];
            var f := PollAll(s, 0, rs);
            Consumed(rs) == 2 && f.currentJob == Some(failed) && f.jobs == [] &&
            f.loops == [] && !f.isProcessing && f.credits == 4
  {
  }
}
