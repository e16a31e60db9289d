/** The dashboard's job controller: the catalog of transformations and their
    credit costs, the checks run before a job is submitted, the optimistic
    credit decrement, the polling of submitted jobs, the upload size guard and
    the balance and history loaded when the page mounts.

    `DashState` is the page's state cells as one value, and the functions
    `Process`, `Tick`, `PollAll`, `Upload` and `Mounted` say what each
    handler does to it; the `Controller` class holds the cells and its
    methods are proved to perform exactly those steps.

    Each running poll interval is an entry of `loops`, holding the job id
    it queries.  A second submission does not stop an interval that is
    still running, so several entries can coexist; a tick names the entry
    it comes from. */
module Dashboard {
  import opened Values
  import opened Api

  datatype CatalogEntry = CatalogEntry(id: TransformationType, name: string, credits: int)

  const Transformations: seq<CatalogEntry> := [
    CatalogEntry(FaceSwap, "Face Swap", 1),
    CatalogEntry(Avatar, "AI Avatar", 3),
    CatalogEntry(ImageToVideo, "Image to Video", 5)
  ]

  const MaxUploadBytes: nat := 10 * 1024 * 1024
  const GenericFailure := "Something went wrong. Please try again."

  /** The first catalog entry for `t`, as `Array.prototype.find` returns it. */
  function Find(catalog: seq<CatalogEntry>, t: TransformationType): (r: Option<CatalogEntry>)
    ensures r.None? <==> forall i :: 0 <= i < |catalog| ==> catalog[i].id != t
    ensures r.Some? ==> exists i :: 0 <= i < |catalog| && catalog[i] == r.value &&
                          r.value.id == t && forall j :: 0 <= j < i ==> catalog[j].id != t
  {
    if catalog == [] then None
    else if catalog[0].id == t then Some(catalog[0])
    else
      var r := Find(catalog[1..], t);
      assert forall i :: 0 < i < |catalog| ==> catalog[i] == catalog[1..][i - 1];
      r
  }

  /** `find(...)?.credits || 1`: the entry's cost, with 1 for a missing entry
      and for a cost of 0. */
  function RequiredCredits(catalog: seq<CatalogEntry>, t: TransformationType): (r: int)
    ensures r != 0
    ensures r == 1 || exists i :: 0 <= i < |catalog| && catalog[i].id == t && catalog[i].credits == r
    ensures Find(catalog, t).None? ==> r == 1
    ensures Find(catalog, t).Some? && Find(catalog, t).value.credits != 0 ==> r == Find(catalog, t).value.credits
  {
    match Find(catalog, t)
    case None => 1
    case Some(entry) => if entry.credits != 0 then entry.credits else 1
  }

  function Cost(t: TransformationType): int
  {
    RequiredCredits(Transformations, t)
  }

  datatype Slot = Source | Target

  datatype DashState = DashState(
    selected: TransformationType,
    sourceImage: Option<string>,
    targetImage: Option<string>,
    credits: int,
    currentJob: Option<Job>,
    jobs: seq<Job>,
    isProcessing: bool,
    loops: seq<string>)

  /** The reasons a submission is refused before any request. */
  datatype Rejection = NoSourceImage | NoTargetImage | InsufficientCredits

  datatype ProcessOutcome =
    | Rejected(reason: Rejection)
    | SubmitFailed(payload: ProcessJobPayload, message: string)
    | Submitted(payload: ProcessJobPayload, job: Job)

  datatype Transition = Transition(next: DashState, outcome: ProcessOutcome)

  datatype FileInfo = FileInfo(size: nat, dataUrl: string)

  datatype UploadVerdict = NoFile | TooLarge | Loaded

  /** The state when the page first renders for `user`. */
  function Initial(user: Option<User>): (r: DashState)
    ensures r.currentJob.None? && r.jobs == [] && !r.isProcessing && r.loops == []
    ensures user.Some? && user.value.credits != 0 ==> r.credits == user.value.credits
    ensures user.None? || user.value.credits == 0 ==> r.credits == 0
    ensures Check(r) == Some(NoSourceImage)
  {
    DashState(FaceSwap, None, None, if user.Some? then user.value.credits else 0, None, [], false, [])
  }

  /** The checks of `handleProcess`, in order, stopping at the first that fails. */
  function Check(s: DashState): (r: Option<Rejection>)
    ensures r == Some(NoSourceImage) <==> !Present(s.sourceImage)
    ensures r == Some(NoTargetImage) <==>
              Present(s.sourceImage) && s.selected == FaceSwap && !Present(s.targetImage)
    ensures r == Some(InsufficientCredits) <==>
              Present(s.sourceImage) && (s.selected == FaceSwap ==> Present(s.targetImage)) &&
              s.credits < Cost(s.selected)
    ensures r == None <==>
              Present(s.sourceImage) && (s.selected == FaceSwap ==> Present(s.targetImage)) &&
              s.credits >= Cost(s.selected)
  {
    if !Present(s.sourceImage) then Some(NoSourceImage)
    else if s.selected == FaceSwap && !Present(s.targetImage) then Some(NoTargetImage)
    else if s.credits < Cost(s.selected) then Some(InsufficientCredits)
    else None
  }

  /** The job request built from the page: the target image only when truthy. */
  function PayloadOf(s: DashState): (r: ProcessJobPayload)
    requires Present(s.sourceImage)
    ensures r.kind == s.selected && r.sourceImage == s.sourceImage.value && r.sourceImage != ""
    ensures r.targetImage.Some? <==> Present(s.targetImage)
    ensures r.targetImage.Some? ==> r.targetImage == s.targetImage
  {
    ProcessJobPayload(s.selected, s.sourceImage.value, OrNone(s.targetImage))
  }

  /** `handleProcess`, given what the submission request resolves to
      (ignored when a check refuses the submission). */
  function Process(s: DashState, ack: ApiResponse<Job>): (r: Transition)
    ensures r.outcome.Rejected? <==> Check(s).Some?
    ensures r.next.selected == s.selected && r.next.sourceImage == s.sourceImage &&
            r.next.targetImage == s.targetImage && r.next.jobs == s.jobs
    ensures r.next.credits == s.credits || (r.outcome.Submitted? && r.next.credits == s.credits - Cost(s.selected))
    ensures r.next.credits >= 0 || r.next.credits == s.credits
  {
    match Check(s)
    case Some(reason) => Transition(s, Rejected(reason))
    case None =>
      var payload := PayloadOf(s);
      if ack.success && ack.data.Some? then
        var job := ack.data.value;
        Transition(
          s.(currentJob := Some(job), credits := s.credits - Cost(s.selected),
             isProcessing := true, loops := s.loops + [job.id]),
          Submitted(payload, job))
      else
        Transition(s.(isProcessing := false), SubmitFailed(payload, OrElse(ack.error, GenericFailure)))
  }

  /** A poll response that stops its interval: a job reported completed or failed. */
  predicate Stops(resp: ApiResponse<Job>)
  {
    resp.success && resp.data.Some? && resp.data.value.status in {Completed, Failed}
  }

  function RemoveAt(xs: seq<string>, k: nat): (r: seq<string>)
    requires k < |xs|
    ensures |r| == |xs| - 1
    ensures forall i :: 0 <= i < k ==> r[i] == xs[i]
    ensures forall i :: k <= i < |r| ==> r[i] == xs[i + 1]
  {
    xs[..k] + xs[k + 1..]
  }

  /** One tick of the interval `loops[k]`, given the status response. */
  function Tick(s: DashState, k: nat, resp: ApiResponse<Job>): (r: DashState)
    requires k < |s.loops|
    ensures r.credits == s.credits && r.selected == s.selected &&
            r.sourceImage == s.sourceImage && r.targetImage == s.targetImage
    ensures Stops(resp) ==> r.loops == RemoveAt(s.loops, k) && !r.isProcessing
    ensures !Stops(resp) ==> r.loops == s.loops && r.isProcessing == s.isProcessing && r.jobs == s.jobs
    ensures r.jobs == s.jobs || (resp.data.Some? && resp.data.value.status == Completed && r.jobs == [resp.data.value] + s.jobs)
  {
    if !(resp.success && resp.data.Some?) then s
    else
      var job := resp.data.value;
      if job.status == Completed then
        s.(currentJob := Some(job), isProcessing := false, jobs := [job] + s.jobs,
           loops := RemoveAt(s.loops, k))
      else if job.status == Failed then
        s.(currentJob := Some(job), isProcessing := false, loops := RemoveAt(s.loops, k))
      else
        s.(currentJob := Some(job))
  }

  /** Ticks of the interval `loops[k]` fed with `rs`, one response per tick,
      until a response stops it. */
  function PollAll(s: DashState, k: nat, rs: seq<ApiResponse<Job>>): (r: DashState)
    requires k < |s.loops|
    decreases |rs|
    ensures r.loops == s.loops || r.loops == RemoveAt(s.loops, k)
    ensures r.loops == s.loops ==> r.isProcessing == s.isProcessing
  {
    if rs == [] then s
    else if Stops(rs[0]) then Tick(s, k, rs[0])
    else PollAll(Tick(s, k, rs[0]), k, rs[1..])
  }

  /** The number of status queries the interval issues for `rs`: up to and
      including the first response that stops it. */
  function Consumed(rs: seq<ApiResponse<Job>>): (n: nat)
    ensures n <= |rs|
    ensures rs != [] ==> 0 < n
  {
    if rs == [] then 0 else if Stops(rs[0]) then 1 else 1 + Consumed(rs[1..])
  }

  function UploadVerdictOf(file: Option<FileInfo>): UploadVerdict
  {
    if file.None? then NoFile
    else if file.value.size > MaxUploadBytes then TooLarge
    else Loaded
  }

  function WithImage(s: DashState, slot: Slot, image: Option<string>): DashState
  {
    match slot
    case Source => s.(sourceImage := image)
    case Target => s.(targetImage := image)
  }

  function ImageAt(s: DashState, slot: Slot): Option<string>
  {
    match slot
    case Source => s.sourceImage
    case Target => s.targetImage
  }

  /** `handleFileUpload` for one slot; `file.dataUrl` is what the file reader
      produces for the file. */
  function Upload(s: DashState, slot: Slot, file: Option<FileInfo>): (r: DashState)
    ensures r.(sourceImage := s.sourceImage, targetImage := s.targetImage) == s
    ensures r != s ==> file.Some? && file.value.size <= MaxUploadBytes
  {
    if UploadVerdictOf(file) == Loaded then WithImage(s, slot, Some(file.value.dataUrl)) else s
  }

  /** The balance and the history requested when the page mounts: each
      replaces the local value when its request succeeded with data. */
  function Mounted(s: DashState, credits: ApiResponse<CreditsBody>, history: ApiResponse<seq<Job>>): (r: DashState)
    ensures r.(credits := s.credits, jobs := s.jobs) == s
  {
    var s1 := if credits.success && credits.data.Some? then s.(credits := credits.data.value.credits) else s;
    if history.success && history.data.Some? then s1.(jobs := history.data.value) else s1
  }

  /** The generate button is enabled only when idle and a source image is set. */
  predicate GenerateEnabled(s: DashState): (b: bool)
    ensures b ==> Check(s) != Some(NoSourceImage)
  {
    !s.isProcessing && Present(s.sourceImage)
  }

  class Controller {
    var selected: TransformationType
    var sourceImage: Option<string>
    var targetImage: Option<string>
    var credits: int
    var currentJob: Option<Job>
    var jobs: seq<Job>
    var isProcessing: bool
    var loops: seq<string>

    function State(): DashState
      reads this
    {
      DashState(selected, sourceImage, targetImage, credits, currentJob, jobs, isProcessing, loops)
    }

    constructor (user: Option<User>)
      ensures State() == Initial(user)
    {
      selected := FaceSwap;
      sourceImage, targetImage := None, None;
      credits := if user.Some? then user.value.credits else 0;
      currentJob := None;
      jobs := [];
      isProcessing := false;
      loops := [];
    }

    method SelectType(t: TransformationType)
      modifies this
      ensures State() == old(State()).(selected := t)
    {
      selected := t;
    }

    /** The remove button of an uploader. */
    method RemoveImage(slot: Slot)
      modifies this
      ensures State() == WithImage(old(State()), slot, None)
    {
      match slot {
        case Source => sourceImage := None;
        case Target => targetImage := None;
      }
    }

    method HandleFileUpload(slot: Slot, file: Option<FileInfo>) returns (verdict: UploadVerdict)
      modifies this
      ensures verdict == UploadVerdictOf(file)
      ensures State() == Upload(old(State()), slot, file)
    {
      if file.None? {
        return NoFile;
      }
      if file.value.size > MaxUploadBytes {
        return TooLarge;
      }
      match slot {
        case Source => sourceImage := Some(file.value.dataUrl);
        case Target => targetImage := Some(file.value.dataUrl);
      }
      verdict := Loaded;
    }

    method LoadOnMount(creditsResult: ApiResponse<CreditsBody>, historyResult: ApiResponse<seq<Job>>)
      modifies this
      ensures State() == Mounted(old(State()), creditsResult, historyResult)
    {
      if creditsResult.success && creditsResult.data.Some? {
        credits := creditsResult.data.value.credits;
      }
      if historyResult.success && historyResult.data.Some? {
        jobs := historyResult.data.value;
      }
    }

    /** `handleProcess`; `ack` is what the submission request resolves to if
        it is issued. */
    method HandleProcess(ack: ApiResponse<Job>) returns (outcome: ProcessOutcome)
      modifies this
      ensures Transition(State(), outcome) == Process(old(State()), ack)
    {
      if !Present(sourceImage) {
        return Rejected(NoSourceImage);
      }
      if selected == FaceSwap && !Present(targetImage) {
        return Rejected(NoTargetImage);
      }
      var required := RequiredCredits(Transformations, selected);
      if credits < required {
        return Rejected(InsufficientCredits);
      }
      isProcessing := true;
      var payload := ProcessJobPayload(selected, sourceImage.value, OrNone(targetImage));
      if ack.success && ack.data.Some? {
        currentJob := ack.data;
        credits := credits - required;
        loops := loops + [ack.data.value.id];
        outcome := Submitted(payload, ack.data.value);
      } else {
        isProcessing := false;
        outcome := SubmitFailed(payload, OrElse(ack.error, GenericFailure));
      }
    }

    /** One tick of the interval `loops[k]`; returns the endpoint it queried. */
    method PollTick(k: nat, resp: ApiResponse<Job>) returns (endpoint: string)
      requires k < |loops|
      modifies this
      ensures endpoint == JobStatusEndpoint(old(loops)[k])
      ensures State() == Tick(old(State()), k, resp)
    {
      endpoint := JobStatusEndpoint(loops[k]);
      if resp.success && resp.data.Some? {
        var job := resp.data.value;
        currentJob := Some(job);
        if job.status == Completed {
          loops := loops[..k] + loops[k + 1..];
          isProcessing := false;
          jobs := [job] + jobs;
        } else if job.status == Failed {
          loops := loops[..k] + loops[k + 1..];
          isProcessing := false;
        }
      }
    }

    /** Runs the interval `loops[k]` over the responses `rs` until one stops
        it; returns the endpoints it queried, one per tick. */
    method RunPolls(k: nat, rs: seq<ApiResponse<Job>>) returns (queried: seq<string>)
      requires k < |loops|
      modifies this
      ensures |queried| == Consumed(rs)
      ensures forall i :: 0 <= i < |queried| ==> queried[i] == JobStatusEndpoint(old(loops)[k])
      ensures State() == PollAll(old(State()), k, rs)
    {
      var id := loops[k];
      var i := 0;
      var running := true;
      queried := [];
      while i < |rs| && running
        invariant 0 <= i <= |rs|
        invariant running ==> k < |loops| && loops[k] == id
        invariant running ==> PollAll(State(), k, rs[i..]) == PollAll(old(State()), k, rs)
        invariant running ==> Consumed(rs) == i + Consumed(rs[i..])
        invariant !running ==> State() == PollAll(old(State()), k, rs) && Consumed(rs) == i
        invariant |queried| == i
        invariant forall j :: 0 <= j < i ==> queried[j] == JobStatusEndpoint(id)
        decreases |rs| - i
      {
        var resp := rs[i];
        assert rs[i..][0] == resp && rs[i..][1..] == rs[i + 1..];
        var endpoint := PollTick(k, resp);
        queried := queried + [endpoint];
        running := !Stops(resp);
        i := i + 1;
      }
      if running {
        assert rs[i..] == [];
      }
    }
  }
}
