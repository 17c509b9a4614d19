/**
  Uploaders that race to commit one artifact.  Each call on the object store is one step; the
  manifest is written only if there is none yet.
 */
module ArtifactCommit {
  import opened Prelude
  import opened Contents

  datatype Descriptor = Descriptor(owner: string, filename: string, mediaType: string,
                                   size: nat, sha256: Digest, createdAt: int)

  datatype Request = Request(uploadId: string, owner: string, filename: string, mediaType: string,
                             expected: Option<Digest>, body: Bytes)

  datatype Failure = Conflict | Rejected | StoreError | NotFound

  type Answer = Result<Descriptor, Failure>

  /** Where one call of `upload_and_commit` stands; from `Inspecting` to `Finishing` it is in `_commit`. */
  datatype Phase =
    | Starting                          // about to look for an existing manifest
    | Staging                           // streaming the body
    | Inspecting(mine: Descriptor)      // about to look again
    | Copying(mine: Descriptor)
    | Putting(mine: Descriptor)
    | Rechecking(mine: Descriptor)      // the manifest was there before
    | Removing(mine: Descriptor)        // lost the race: deletes the content it copied
    | Finishing(answer: Answer)         // about to delete the staging object
    | Ended(answer: Answer)

  datatype Uploader = Uploader(request: Request, phase: Phase)

  /** The objects of one artifact in the bucket. */
  datatype Store = Store(
    manifest: Option<Descriptor>,
    contents: map<Digest, Bytes>,        // content objects by digest
    staging: map<string, Bytes>)         // staging objects by upload id

  datatype World = World(
    store: Store,
    uploaders: seq<Uploader>,
    winner: nat)                         // who wrote the manifest

  predicate Matches(d: Descriptor, owner: string, filename: string, mediaType: string, expected: Option<Digest>) {
    d.owner == owner && d.filename == filename && d.mediaType == mediaType
    && (expected == None || d.sha256 == expected.value)
  }

  function MatchExisting(d: Descriptor, owner: string, filename: string, mediaType: string,
                         expected: Option<Digest>): Answer {
    if Matches(d, owner, filename, mediaType, expected) then Ok(d) else Err(Conflict)
  }

  function MatchMine(existing: Descriptor, mine: Descriptor): Answer {
    MatchExisting(existing, mine.owner, mine.filename, mine.mediaType, Some(mine.sha256))
  }

  function DescriptorOf(r: Request, now: int): Descriptor {
    Descriptor(r.owner, r.filename, r.mediaType, |r.body|, Sha256(r.body), now)
  }

  predicate Active(u: Uploader) {
    !u.phase.Ended? && !u.phase.Starting?
  }

  datatype PutOutcome =
    | Written        // the manifest was absent and is now written
    | Present        // refused: a manifest exists
    | Unknown        // written, but the answer was lost and the call raises
    | Retried        // written, but the answer was lost and the client's retry was refused
    | Failed         // nothing written, the call raises

  /** One call that `_commit` makes on the store, with its outcome. */
  datatype Call =
    | Inspect
    | Copy(ok: bool, written: bool)
    | Put(outcome: PutOutcome)
    | Recheck
    | Remove(ok: bool)
    | FailLookup                        // looking for the manifest raises

  datatype Moment = Moment(store: Store, phase: Phase)

  predicate Allowed(r: Request, s: Store, p: Phase, call: Call) {
    match call
    case Inspect => p.Inspecting?
    case Copy(ok, written) => p.Copying? && (ok ==> written) && (written ==> r.uploadId in s.staging)
    case Put(outcome) => p.Putting? && PutAllowed(s.manifest, outcome)
    case Recheck => p.Rechecking?
    case Remove(_) => p.Removing?
    case FailLookup => p.Inspecting? || p.Rechecking?
  }

  predicate PutAllowed(manifest: Option<Descriptor>, outcome: PutOutcome) {
    && (outcome == Present ==> manifest.Some?)
    && (outcome in {Written, Unknown, Retried} ==> manifest == None)
  }

  /** The store after a call, and where the uploader stands then. */
  function After(r: Request, s: Store, p: Phase, call: Call): Moment
    requires Allowed(r, s, p, call)
  {
    match call
    case Inspect =>
      Moment(s, if s.manifest.Some? then Finishing(MatchMine(s.manifest.value, p.mine)) else Copying(p.mine))
    case Copy(ok, written) =>
      Moment(if written then s.(contents := s.contents[p.mine.sha256 := s.staging[r.uploadId]]) else s,
             if ok then Putting(p.mine) else Finishing(Err(StoreError)))
    case Put(outcome) => AfterPut(s, p.mine, outcome)
    case Recheck => Moment(s, AfterRefusal(s.manifest, p.mine))
    case Remove(ok) =>
      Moment(if ok then s.(contents := s.contents - {p.mine.sha256}) else s, Finishing(Err(Conflict)))
    case FailLookup => Moment(s, Finishing(Err(StoreError)))
  }

  function AfterPut(s: Store, mine: Descriptor, outcome: PutOutcome): Moment {
    match outcome
    case Written => Moment(s.(manifest := Some(mine)), Finishing(Ok(mine)))
    case Present => Moment(s, Rechecking(mine))
    case Unknown => Moment(s.(manifest := Some(mine)), Finishing(Err(StoreError)))
    case Retried => Moment(s.(manifest := Some(mine)), Rechecking(mine))
    case Failed => Moment(s, Finishing(Err(StoreError)))
  }

  /** What a refused writer does about the manifest that it finds. */
  function AfterRefusal(manifest: Option<Descriptor>, mine: Descriptor): Phase {
    if manifest == None then Finishing(Err(NotFound))
    else
      var answer := MatchMine(manifest.value, mine);
      if answer.Err? && manifest.value.sha256 != mine.sha256 then Removing(mine) else Finishing(answer)
  }

  // ---------------------------------------------------------------- all uploaders

  datatype Step =
    | DoArrive(request: Request)
    | DoLook(u: nat, readable: bool)
    | DoStage(u: nat, now: int, accepted: bool, written: bool)
    | DoCall(u: nat, call: Call)
    | DoUnstage(u: nat, ok: bool)

  /** Uploader `u` arrives at `m`; whoever finds no manifest and leaves one has written it. */
  function Moved(w: World, u: nat, m: Moment): World
    requires u < |w.uploaders|
  {
    World(m.store, w.uploaders[u := w.uploaders[u].(phase := m.phase)],
          if w.store.manifest == None && m.store.manifest.Some? then u else w.winner)
  }

  ghost predicate Init(w: World) {
    w.store == Store(None, map[], map[]) && w.uploaders == []
  }

  /** No other call with the same upload id is under way. */
  predicate Alone(uploaders: seq<Uploader>, u: nat)
    requires u < |uploaders|
  {
    forall v :: 0 <= v < |uploaders| && v != u ==>
      !Active(uploaders[v]) || uploaders[v].request.uploadId != uploaders[u].request.uploadId
  }

  /** An unreadable manifest ends the call; a missing one lets it go on. */
  predicate Look(w: World, w': World, u: nat, readable: bool)
    requires u < |w.uploaders|
  {
    var r := w.uploaders[u].request;
    && w.uploaders[u].phase.Starting?
    && if !readable then
         w' == Moved(w, u, Moment(w.store, Ended(Err(StoreError))))
       else if w.store.manifest.Some? then
         var answer := MatchExisting(w.store.manifest.value, r.owner, r.filename, r.mediaType, r.expected);
         w' == Moved(w, u, Moment(w.store, Ended(answer)))
       else
         Alone(w.uploaders, u) && w' == Moved(w, u, Moment(w.store, Phase.Staging))
  }

  /**
    The body is accepted, or rejected (too large, wrong digest, a failing store).  A completion
    whose answer is lost is a rejection that leaves the staging object behind.
   */
  predicate Stage(w: World, w': World, u: nat, now: int, accepted: bool, written: bool)
    requires u < |w.uploaders|
  {
    var r := w.uploaders[u].request;
    && w.uploaders[u].phase.Staging?
    && (accepted ==> written && (r.expected == None || r.expected == Some(Sha256(r.body))))
    && var staging := if written then w.store.staging[r.uploadId := r.body] else w.store.staging;
    && var next := if accepted then Inspecting(DescriptorOf(r, now)) else Ended(Err(Rejected));
    && w' == Moved(w, u, Moment(w.store.(staging := staging), next))
  }

  predicate MakeCall(w: World, w': World, u: nat, call: Call)
    requires u < |w.uploaders|
  {
    var r, p := w.uploaders[u].request, w.uploaders[u].phase;
    Allowed(r, w.store, p, call) && w' == Moved(w, u, After(r, w.store, p, call))
  }

  predicate Unstage(w: World, w': World, u: nat, ok: bool)
    requires u < |w.uploaders|
  {
    && w.uploaders[u].phase.Finishing?
    && var id := w.uploaders[u].request.uploadId;
    && var staging := if ok then w.store.staging - {id} else w.store.staging;
    && w' == Moved(w, u, Moment(w.store.(staging := staging), Ended(w.uploaders[u].phase.answer)))
  }

  predicate Next(w: World, step: Step, w': World) {
    match step
    case DoArrive(r) => w' == w.(uploaders := w.uploaders + [Uploader(r, Starting)])
    case DoLook(u, readable) => u < |w.uploaders| && Look(w, w', u, readable)
    case DoStage(u, now, accepted, written) => u < |w.uploaders| && Stage(w, w', u, now, accepted, written)
    case DoCall(u, call) => u < |w.uploaders| && MakeCall(w, w', u, call)
    case DoUnstage(u, ok) => u < |w.uploaders| && Unstage(w, w', u, ok)
  }

  // ---------------------------------------------------------------- invariant

  predicate Holds(contents: map<Digest, Bytes>, d: Descriptor) {
    && d.sha256 in contents && Sha256(contents[d.sha256]) == d.sha256
    && |contents[d.sha256]| == d.size
  }

  /** A descriptor that an uploader built for the body it has streamed. */
  predicate Own(r: Request, mine: Descriptor) {
    mine == DescriptorOf(r, mine.createdAt) && (r.expected == None || r.expected == Some(mine.sha256))
  }

  /**
    A success is the manifest and fits the request; a conflict means that the manifest differs from
    what was asked for or sent; and no writer is refused over a manifest that does not exist.
   */
  predicate AnswerInv(manifest: Option<Descriptor>, r: Request, answer: Answer) {
    match answer
    case Ok(d) => manifest == Some(d) && Fits(d, r)
    case Err(Conflict) => manifest.Some? && Differs(manifest.value, r)
    case Err(NotFound) => false
    case Err(_) => true
  }

  /** The descriptor has the owner, the name, the type and the digest that the request asks for. */
  predicate Fits(d: Descriptor, r: Request) {
    && d.owner == r.owner && d.filename == r.filename && d.mediaType == r.mediaType
    && (r.expected.Some? ==> d.sha256 == r.expected.value)
  }

  predicate Differs(d: Descriptor, r: Request) {
    !Fits(d, r) || d.sha256 != Sha256(r.body)
  }

  predicate Staged(staging: map<string, Bytes>, r: Request) {
    r.uploadId in staging && staging[r.uploadId] == r.body
  }

  predicate PhaseInv(s: Store, r: Request, p: Phase) {
    match p
    case Starting => true
    case Staging => true
    case Inspecting(mine) => Own(r, mine) && Staged(s.staging, r)
    case Copying(mine) => Own(r, mine) && Staged(s.staging, r)
    case Putting(mine) => Own(r, mine) && (s.manifest == None ==> Holds(s.contents, mine))
    case Rechecking(mine) => Own(r, mine) && s.manifest.Some?
    case Removing(mine) => Own(r, mine) && s.manifest.Some? && s.manifest.value.sha256 != mine.sha256
    case Finishing(answer) => AnswerInv(s.manifest, r, answer)
    case Ended(answer) => AnswerInv(s.manifest, r, answer)
  }

  predicate UploaderInv(s: Store, u: Uploader) {
    PhaseInv(s, u.request, u.phase)
  }

  ghost predicate UploadersInv(w: World) {
    forall u :: 0 <= u < |w.uploaders| ==> UploaderInv(w.store, w.uploaders[u])
  }

  ghost predicate OnePerUploadId(uploaders: seq<Uploader>) {
    forall u :: 0 <= u < |uploaders| && Active(uploaders[u]) ==> Alone(uploaders, u)
  }

  predicate StoreInv(s: Store) {
    s.manifest.Some? ==> Holds(s.contents, s.manifest.value)
  }

  ghost predicate WinnerInv(w: World) {
    w.store.manifest.Some? ==>
      w.winner < |w.uploaders| && Own(w.uploaders[w.winner].request, w.store.manifest.value)
  }

  ghost predicate Inv(w: World) {
    UploadersInv(w) && OnePerUploadId(w.uploaders) && StoreInv(w.store) && WinnerInv(w)
  }

  // ---------------------------------------------------------------- one uploader among others

  /** What an uploader may count on while others make their steps. */
  predicate Rely(r: Request, s: Store, s': Store) {
    && (s.manifest.Some? ==> s'.manifest == s.manifest)
    && (StoreInv(s) ==> StoreInv(s'))
    && (s'.manifest == None && Holds(s.contents, DescriptorOf(r, 0)) ==> Holds(s'.contents, DescriptorOf(r, 0)))
    && (Staged(s.staging, r) ==> Staged(s'.staging, r))
  }

  lemma RelyTransitive(r: Request, s: Store, s': Store, s'': Store)
    requires Rely(r, s, s') && Rely(r, s', s'')
    ensures Rely(r, s, s'')
  {
  }

  predicate Sound(r: Request, m: Moment) {
    StoreInv(m.store) && PhaseInv(m.store, r, m.phase)
  }

  lemma RelyKeepsPhase(r: Request, s: Store, s': Store, p: Phase)
    requires PhaseInv(s, r, p) && Rely(r, s, s')
    ensures PhaseInv(s', r, p)
  {
  }

  /** A call keeps the uploader sound, the store sound, and a manifest once written. */
  lemma CallKeeps(r: Request, s: Store, p: Phase, call: Call)
    requires Sound(r, Moment(s, p)) && Allowed(r, s, p, call)
    ensures var m := After(r, s, p, call);
            && Sound(r, m)
            && (s.manifest.Some? ==> m.store.manifest == s.manifest)
            && m.store.staging == s.staging
            && (s.manifest == None && m.store.manifest.Some? ==> Own(r, m.store.manifest.value))
  {
    match call
    case Inspect =>
    case Copy(_, _) =>
    case Put(outcome) =>
    case Recheck =>
    case Remove(_) =>
    case FailLookup =>
  }

  /** A call of one uploader respects what any other uploader with another upload id relies on. */
  lemma CallRely(r: Request, s: Store, p: Phase, call: Call, other: Request)
    requires Sound(r, Moment(s, p)) && Allowed(r, s, p, call)
    ensures Rely(other, s, After(r, s, p, call).store)
  {
    CallKeeps(r, s, p, call);
  }

  function Actor(w: World, step: Step): nat {
    match step
    case DoArrive(_) => |w.uploaders|
    case DoLook(u, _) => u
    case DoStage(u, _, _, _) => u
    case DoCall(u, _) => u
    case DoUnstage(u, _) => u
  }

  /** Steps respect what every other active uploader counts on. */
  lemma StepRely(w: World, step: Step, w': World, v: nat)
    requires Inv(w) && Next(w, step, w')
    requires v < |w.uploaders| && v != Actor(w, step) && Active(w.uploaders[v])
    ensures Rely(w.uploaders[v].request, w.store, w'.store)
  {
    var u := Actor(w, step);
    if u < |w.uploaders| {
      assert UploaderInv(w.store, w.uploaders[u]);
      match step
      case DoCall(_, call) =>
        CallRely(w.uploaders[u].request, w.store, w.uploaders[u].phase, call, w.uploaders[v].request);
      case DoLook(_, _) =>
      case DoStage(_, _, _, _) => assert Alone(w.uploaders, u);
      case DoUnstage(_, _) => assert Alone(w.uploaders, u);
    }
  }

  lemma StepKeepsManifest(w: World, step: Step, w': World)
    requires Inv(w) && Next(w, step, w')
    ensures w.store.manifest.Some? ==> w'.store.manifest == w.store.manifest
    ensures StoreInv(w'.store) && WinnerInv(w')
  {
    var u := Actor(w, step);
    if u < |w.uploaders| {
      assert UploaderInv(w.store, w.uploaders[u]);
      if step.DoCall? {
        CallKeeps(w.uploaders[u].request, w.store, w.uploaders[u].phase, step.call);
      }
    }
  }

  lemma StepKeepsActor(w: World, step: Step, w': World)
    requires Inv(w) && Next(w, step, w')
    ensures Actor(w, step) < |w'.uploaders| && UploaderInv(w'.store, w'.uploaders[Actor(w, step)])
  {
    var u := Actor(w, step);
    if u < |w.uploaders| {
      assert UploaderInv(w.store, w.uploaders[u]);
      if step.DoCall? {
        CallKeeps(w.uploaders[u].request, w.store, w.uploaders[u].phase, step.call);
      }
    }
  }

  /** An uploader that was active, or is alone with its upload id, or ends, disturbs nobody's id. */
  lemma MovedUploadIds(uploaders: seq<Uploader>, u: nat, p: Phase)
    requires OnePerUploadId(uploaders) && u < |uploaders|
    requires Active(uploaders[u]) || Alone(uploaders, u) || p.Ended?
    ensures OnePerUploadId(uploaders[u := uploaders[u].(phase := p)])
  {
    var next := uploaders[u := uploaders[u].(phase := p)];
    assert Active(uploaders[u]) ==> Alone(uploaders, u);
    forall v | 0 <= v < |next| && Active(next[v])
      ensures Alone(next, v)
    {
      if v != u {
        assert Alone(uploaders, v);
      }
    }
  }

  lemma StepKeepsUploadIds(w: World, step: Step, w': World)
    requires Inv(w) && Next(w, step, w')
    ensures OnePerUploadId(w'.uploaders)
  {
    var u := Actor(w, step);
    if u < |w.uploaders| {
      MovedUploadIds(w.uploaders, u, w'.uploaders[u].phase);
    } else {
      forall v | 0 <= v < |w'.uploaders| && Active(w'.uploaders[v])
        ensures Alone(w'.uploaders, v)
      {
        assert Alone(w.uploaders, v);
      }
    }
  }

  lemma OthersUnchanged(w: World, step: Step, w': World, v: nat)
    requires Next(w, step, w') && v < |w.uploaders|
    ensures v < |w'.uploaders| && w'.uploaders[v].request == w.uploaders[v].request
    ensures v != Actor(w, step) ==> w'.uploaders[v] == w.uploaders[v]
  {
  }

  lemma IdleKeepsPhase(s: Store, s': Store, u: Uploader)
    requires UploaderInv(s, u) && !Active(u) && (s.manifest.Some? ==> s'.manifest == s.manifest)
    ensures UploaderInv(s', u)
  {
  }

  lemma NextInv(w: World, step: Step, w': World)
    requires Inv(w) && Next(w, step, w')
    ensures Inv(w')
  {
    StepKeepsManifest(w, step, w');
    StepKeepsUploadIds(w, step, w');
    StepKeepsActor(w, step, w');
    forall v | 0 <= v < |w'.uploaders| && v != Actor(w, step)
      ensures UploaderInv(w'.store, w'.uploaders[v])
    {
      OthersUnchanged(w, step, w', v);
      var other := w.uploaders[v];
      assert UploaderInv(w.store, other);
      if Active(other) {
        StepRely(w, step, w', v);
        RelyKeepsPhase(other.request, w.store, w'.store, other.phase);
      } else {
        IdleKeepsPhase(w.store, w'.store, other);
      }
    }
  }

  // ---------------------------------------------------------------- runs

  datatype Run = Run(worlds: seq<World>, steps: seq<Step>) {
    ghost predicate StepAt(i: nat)
      requires |worlds| == |steps| + 1
    {
      i < |steps| && Next(worlds[i], steps[i], worlds[i + 1])
    }

    ghost predicate Valid() {
      && |worlds| == |steps| + 1 && Init(worlds[0])
      && forall i: nat {:trigger StepAt(i)} :: i < |steps| ==> StepAt(i)
    }
  }

  lemma {:induction false} RunInv(run: Run, i: nat)
    requires run.Valid() && i < |run.worlds|
    ensures Inv(run.worlds[i])
  {
    if i > 0 {
      RunInv(run, i - 1);
      assert run.StepAt(i - 1);
      NextInv(run.worlds[i - 1], run.steps[i - 1], run.worlds[i]);
    }
  }

  /** Once written, the manifest never changes, and uploaders keep their requests. */
  lemma {:induction false} ManifestIsForever(run: Run, i: nat, j: nat)
    requires run.Valid() && i <= j < |run.worlds| && run.worlds[i].store.manifest.Some?
    ensures run.worlds[j].store.manifest == run.worlds[i].store.manifest
    decreases j - i
  {
    if i < j {
      RunInv(run, i);
      assert run.StepAt(i);
      StepKeepsManifest(run.worlds[i], run.steps[i], run.worlds[i + 1]);
      ManifestIsForever(run, i + 1, j);
    }
  }

  /**
    Whatever losers clean up and wherever calls fail: a manifest has its content object, of the
    recorded size and digest, and describes the body of an uploader whose expectation it met.
   */
  lemma CommittedContentIsPresent(run: Run, i: nat)
    requires run.Valid() && i < |run.worlds| && run.worlds[i].store.manifest.Some?
    ensures var w := run.worlds[i];
            var d := w.store.manifest.value;
            && Holds(w.store.contents, d)
            && w.winner < |w.uploaders|
            && var r := w.uploaders[w.winner].request;
            && w.store.contents[d.sha256] == r.body
            && Fits(d, r)
  {
    RunInv(run, i);
  }

  /** All successful uploads, at any two moments, return one descriptor, which fits them both. */
  lemma SuccessesAgree(run: Run, i: nat, j: nat, u: nat, v: nat)
    requires run.Valid() && i <= j < |run.worlds|
    requires u < |run.worlds[i].uploaders| && v < |run.worlds[j].uploaders|
    requires var p := run.worlds[i].uploaders[u].phase; p.Ended? && p.answer.Ok?
    requires var p := run.worlds[j].uploaders[v].phase; p.Ended? && p.answer.Ok?
    ensures run.worlds[i].uploaders[u].phase.answer == run.worlds[j].uploaders[v].phase.answer
    ensures Fits(run.worlds[j].uploaders[v].phase.answer.value, run.worlds[j].uploaders[v].request)
    ensures Fits(run.worlds[j].uploaders[v].phase.answer.value, run.worlds[i].uploaders[u].request)
    ensures run.worlds[j].store.manifest == Some(run.worlds[j].uploaders[v].phase.answer.value)
  {
    RunInv(run, i);
    RunInv(run, j);
    assert UploaderInv(run.worlds[i].store, run.worlds[i].uploaders[u]);
    assert UploaderInv(run.worlds[j].store, run.worlds[j].uploaders[v]);
    ManifestIsForever(run, i, j);
  }

  /** Every refusal, at any moment, is over a manifest that differs from what was asked for or sent. */
  lemma ConflictsAreReal(run: Run, i: nat, u: nat)
    requires run.Valid() && i < |run.worlds| && u < |run.worlds[i].uploaders|
    requires var p := run.worlds[i].uploaders[u].phase; p.Ended? && p.answer.Err?
    ensures var answer, manifest := run.worlds[i].uploaders[u].phase.answer, run.worlds[i].store.manifest;
            && answer.error != NotFound
            && (answer.error == Conflict ==>
                  manifest.Some? && Differs(manifest.value, run.worlds[i].uploaders[u].request))
  {
    RunInv(run, i);
    assert UploaderInv(run.worlds[i].store, run.worlds[i].uploaders[u]);
  }

  // ---------------------------------------------------------------- nothing is left behind

  /** A step in which no answer is lost and no cleaning up fails. */
  predicate Tidies(w: World, step: Step) {
    match step
    case DoStage(_, _, accepted, written) => written ==> accepted
    case DoCall(u, call) =>
      && (call.Copy? ==> (call.written ==> call.ok))
      && (call.Put? ==> call.outcome != Failed)
      && (call.Remove? ==> call.ok)
      && (call.FailLookup? ==> u < |w.uploaders| && w.uploaders[u].phase.Inspecting?)
    case DoUnstage(_, ok) => ok
    case _ => true
  }

  /** The uploader has copied this content and has still to commit or to remove it. */
  predicate HoldsCopy(u: Uploader, sha: Digest) {
    match u.phase
    case Putting(mine) => mine.sha256 == sha
    case Rechecking(mine) => mine.sha256 == sha
    case Removing(mine) => mine.sha256 == sha
    case _ => false
  }

  /** The uploader has staged its body and has still to delete it. */
  predicate HoldsStage(u: Uploader, id: string) {
    InCommit(u.phase) && u.request.uploadId == id
  }

  ghost predicate Accounted(w: World, sha: Digest) {
    || (w.store.manifest.Some? && w.store.manifest.value.sha256 == sha)
    || exists u :: 0 <= u < |w.uploaders| && HoldsCopy(w.uploaders[u], sha)
  }

  ghost predicate StageAccounted(w: World, id: string) {
    exists u :: 0 <= u < |w.uploaders| && HoldsStage(w.uploaders[u], id)
  }

  ghost predicate Tidy(w: World) {
    && (forall sha :: sha in w.store.contents ==> Accounted(w, sha))
    && (forall id :: id in w.store.staging ==> StageAccounted(w, id))
  }

  /** What the acting uploader held it still holds, or it is the manifest's, or it is gone. */
  lemma ActorKeepsCopy(w: World, step: Step, w': World, sha: Digest)
    requires Inv(w) && Next(w, step, w') && Tidies(w, step)
    requires Actor(w, step) < |w.uploaders| && HoldsCopy(w.uploaders[Actor(w, step)], sha)
    ensures Accounted(w', sha) || sha !in w'.store.contents
  {
    var u := Actor(w, step);
    assert UploaderInv(w.store, w.uploaders[u]);
    assert HoldsCopy(w'.uploaders[u], sha) || (w'.store.manifest.Some? && w'.store.manifest.value.sha256 == sha)
           || sha !in w'.store.contents;
  }

  lemma CopyAccounted(w: World, step: Step, w': World, sha: Digest)
    requires Inv(w) && Next(w, step, w') && Tidies(w, step) && sha in w'.store.contents
    requires sha in w.store.contents ==> Accounted(w, sha)
    ensures Accounted(w', sha)
  {
    StepKeepsManifest(w, step, w');
    if sha in w.store.contents {
      if !(w.store.manifest.Some? && w.store.manifest.value.sha256 == sha) {
        var u :| 0 <= u < |w.uploaders| && HoldsCopy(w.uploaders[u], sha);
        if u == Actor(w, step) {
          ActorKeepsCopy(w, step, w', sha);
        } else {
          OthersUnchanged(w, step, w', u);
          assert HoldsCopy(w'.uploaders[u], sha);
        }
      }
    } else {
      assert HoldsCopy(w'.uploaders[Actor(w, step)], sha);
    }
  }

  lemma StagedAccounted(w: World, step: Step, w': World, id: string)
    requires Inv(w) && Next(w, step, w') && Tidies(w, step) && id in w'.store.staging
    requires id in w.store.staging ==> StageAccounted(w, id)
    ensures StageAccounted(w', id)
  {
    if id in w.store.staging {
      var u :| 0 <= u < |w.uploaders| && HoldsStage(w.uploaders[u], id);
      OthersUnchanged(w, step, w', u);
      assert HoldsStage(w'.uploaders[u], id);
    } else {
      assert HoldsStage(w'.uploaders[Actor(w, step)], id);
    }
  }

  lemma {:induction false} RunTidy(run: Run, i: nat)
    requires run.Valid() && i < |run.worlds|
    requires forall k :: 0 <= k < i ==> Tidies(run.worlds[k], run.steps[k])
    ensures Tidy(run.worlds[i])
  {
    if i > 0 {
      var w, step, w' := run.worlds[i - 1], run.steps[i - 1], run.worlds[i];
      RunTidy(run, i - 1);
      RunInv(run, i - 1);
      assert run.StepAt(i - 1) && Tidies(w, step);
      forall sha | sha in w'.store.contents ensures Accounted(w', sha) {
        CopyAccounted(w, step, w', sha);
      }
      forall id | id in w'.store.staging ensures StageAccounted(w', id) {
        StagedAccounted(w, step, w', id);
      }
    }
  }

  /**
    If no answer is lost and no cleaning up fails, then once all uploads have ended there is no
    staging object, and no content object but the one that the manifest names.
   */
  lemma NothingLeftBehind(run: Run, i: nat)
    requires run.Valid() && i < |run.worlds|
    requires forall k :: 0 <= k < i ==> Tidies(run.worlds[k], run.steps[k])
    requires forall u :: 0 <= u < |run.worlds[i].uploaders| ==> run.worlds[i].uploaders[u].phase.Ended?
    ensures var s := run.worlds[i].store;
            && s.staging == map[]
            && s.contents.Keys == if s.manifest.Some? then {s.manifest.value.sha256} else {}
  {
    RunTidy(run, i);
    RunInv(run, i);
    var w := run.worlds[i];
    assert forall id :: !StageAccounted(w, id);
    assert w.store.staging.Keys == {};
    forall sha | sha in w.store.contents
      ensures w.store.manifest.Some? && w.store.manifest.value.sha256 == sha
    {
      assert Accounted(w, sha);
    }
  }

  // ---------------------------------------------------------------- a run as one uploader sees it

  /** Between two moments of an uploader: a call of its own, or whatever others may do. */
  datatype Act = Others | Mine(call: Call)

  predicate ActHolds(r: Request, m: Moment, act: Act, m': Moment) {
    match act
    case Others => m'.phase == m.phase && Rely(r, m.store, m'.store)
    case Mine(call) => Allowed(r, m.store, m.phase, call) && m' == After(r, m.store, m.phase, call)
  }

  /** The moments of one uploader from entering `_commit` on. */
  datatype Trail = Trail(moments: seq<Moment>, acts: seq<Act>) {
    predicate ActAt(r: Request, i: nat)
      requires |moments| == |acts| + 1
    {
      i < |acts| && ActHolds(r, moments[i], acts[i], moments[i + 1])
    }

    ghost predicate Valid(r: Request) {
      && |moments| == |acts| + 1
      && forall i: nat {:trigger ActAt(r, i)} :: i < |acts| ==> ActAt(r, i)
    }

    function Last(): Moment
      requires |moments| > 0
    {
      moments[|moments| - 1]
    }

    function Then(act: Act, m: Moment): Trail {
      Trail(moments + [m], acts + [act])
    }
  }

  lemma ActKeeps(r: Request, m: Moment, act: Act, m': Moment)
    requires Sound(r, m) && ActHolds(r, m, act, m')
    ensures Sound(r, m') && (m.store.manifest.Some? ==> m'.store.manifest == m.store.manifest)
  {
    match act
    case Others => RelyKeepsPhase(r, m.store, m'.store, m.phase);
    case Mine(call) => CallKeeps(r, m.store, m.phase, call);
  }

  lemma ThenValid(r: Request, trail: Trail, act: Act, m: Moment)
    requires trail.Valid(r) && ActHolds(r, trail.Last(), act, m)
    ensures trail.Then(act, m).Valid(r)
  {
    var next := trail.Then(act, m);
    forall i: nat | i < |next.acts|
      ensures next.ActAt(r, i)
    {
      assert i < |trail.acts| ==> trail.ActAt(r, i);
    }
  }

  predicate InCommit(p: Phase) {
    p.Inspecting? || p.Copying? || p.Putting? || p.Rechecking? || p.Removing? || p.Finishing?
  }

  ghost predicate CommitsFrom(run: Run, u: nat, i: nat, j: nat)
    requires run.Valid() && i <= j < |run.worlds|
  {
    forall k :: i <= k <= j ==> u < |run.worlds[k].uploaders| && InCommit(run.worlds[k].uploaders[u].phase)
  }

  ghost function MomentOf(w: World, u: nat): Moment
    requires u < |w.uploaders|
  {
    Moment(w.store, w.uploaders[u].phase)
  }

  /** A step of the protocol is an act of each uploader that is in `_commit` before and after it. */
  lemma StepIsAct(w: World, step: Step, w': World, u: nat) returns (act: Act)
    requires Inv(w) && Next(w, step, w') && u < |w.uploaders| && u < |w'.uploaders|
    requires InCommit(w.uploaders[u].phase) && InCommit(w'.uploaders[u].phase)
    ensures ActHolds(w.uploaders[u].request, MomentOf(w, u), act, MomentOf(w', u))
    ensures act.Mine? <==> Actor(w, step) == u
  {
    OthersUnchanged(w, step, w', u);
    if Actor(w, step) == u {
      act := Mine(step.call);
    } else {
      act := Others;
      StepRely(w, step, w', u);
    }
  }

  /** And a call of an uploader is a step of the protocol, whatever the others are doing. */
  lemma ActIsStep(w: World, u: nat, call: Call)
    requires u < |w.uploaders|
    requires Allowed(w.uploaders[u].request, w.store, w.uploaders[u].phase, call)
    ensures var m := After(w.uploaders[u].request, w.store, w.uploaders[u].phase, call);
            Next(w, DoCall(u, call), Moved(w, u, m)) && MomentOf(Moved(w, u, m), u) == m
  {
  }

  /** What an uploader sees of a run while it is in `_commit` is a trail. */
  lemma {:induction false} RunIsTrail(run: Run, u: nat, i: nat, j: nat) returns (trail: Trail)
    requires run.Valid() && i <= j < |run.worlds| && CommitsFrom(run, u, i, j)
    ensures run.worlds[j].uploaders[u].request == run.worlds[i].uploaders[u].request
    ensures trail.Valid(run.worlds[i].uploaders[u].request) && |trail.acts| == j - i
    ensures forall k :: i <= k <= j ==> trail.moments[k - i] == MomentOf(run.worlds[k], u)
    decreases j - i
  {
    if i == j {
      trail := Trail([MomentOf(run.worlds[i], u)], []);
    } else {
      var w, w' := run.worlds[j - 1], run.worlds[j];
      trail := RunIsTrail(run, u, i, j - 1);
      RunInv(run, j - 1);
      assert run.StepAt(j - 1);
      OthersUnchanged(w, run.steps[j - 1], w', u);
      var act := StepIsAct(w, run.steps[j - 1], w', u);
      ThenValid(w.uploaders[u].request, trail, act, MomentOf(w', u));
      trail := trail.Then(act, MomentOf(w', u));
    }
  }

  /** Any number of steps of others, one after the other, is one act of others. */
  lemma {:induction false} OthersAreOneAct(run: Run, u: nat, i: nat, j: nat)
    requires run.Valid() && i <= j < |run.worlds| && CommitsFrom(run, u, i, j)
    requires forall k :: i <= k < j ==> Actor(run.worlds[k], run.steps[k]) != u
    ensures ActHolds(run.worlds[i].uploaders[u].request, MomentOf(run.worlds[i], u), Others, MomentOf(run.worlds[j], u))
    ensures run.worlds[j].uploaders[u] == run.worlds[i].uploaders[u]
    decreases j - i
  {
    if i < j {
      var w, w' := run.worlds[j - 1], run.worlds[j];
      OthersAreOneAct(run, u, i, j - 1);
      RunInv(run, j - 1);
      assert run.StepAt(j - 1);
      OthersUnchanged(w, run.steps[j - 1], w', u);
      StepRely(w, run.steps[j - 1], w', u);
      RelyTransitive(w.uploaders[u].request, run.worlds[i].store, w.store, w'.store);
    }
  }

  // ---------------------------------------------------------------- the code of one uploader

  datatype PutFault = NoFault | AnswerLost | LostThenRetried | NotWritten

  /** What goes wrong in one call of `_commit`. */
  datatype Faults = Faults(look: bool, copy: bool, copyWritten: bool, put: PutFault, recheck: bool, remove: bool)

  /** What the store makes of a conditional put. */
  function OutcomeOf(manifest: Option<Descriptor>, fault: PutFault): PutOutcome {
    if fault == NotWritten then Failed
    else if manifest.Some? then Present
    else
      match fault
      case NoFault => Written
      case AnswerLost => Unknown
      case LostThenRetried => Retried
  }

  /**
    `_commit` as one uploader executes it.  Between any two calls on the store others may act;
    `Interfere` lets them do whatever `Rely` allows.  Every execution leaves its trail of moments,
    which `ActIsStep`, `StepIsAct` and `OthersAreOneAct` relate to the runs of all uploaders.
   */
  class ArtifactBucket {
    var manifest: Option<Descriptor>
    var contents: map<Digest, Bytes>
    var staging: map<string, Bytes>

    constructor ()
      ensures Current() == Store(None, map[], map[])
    {
      manifest, contents, staging := None, map[], map[];
    }

    function Current(): Store
      reads this
    {
      Store(manifest, contents, staging)
    }

    /** The trail of an uploader ends here, in a sound moment. */
    ghost predicate Stands(r: Request, trail: Trail, p: Phase)
      reads this
    {
      trail.Valid(r) && trail.Last() == Moment(Current(), p) && Sound(r, trail.Last())
    }

    /** Any number of steps of other uploaders. */
    method Interfere(r: Request, ghost trail: Trail, ghost p: Phase) returns (ghost next: Trail)
      requires Stands(r, trail, p)
      modifies this
      ensures Stands(r, next, p) && next.moments[0] == trail.moments[0]
      ensures old(manifest).Some? ==> manifest == old(manifest)
    {
      assert Rely(r, Current(), Current());
      var others: Store :| Rely(r, Current(), others);
      ghost var m := Moment(others, p);
      ActKeeps(r, trail.Last(), Others, m);
      ThenValid(r, trail, Others, m);
      next := trail.Then(Others, m);
      manifest, contents, staging := others.manifest, others.contents, others.staging;
    }

    /** The trail goes on with a call that has just been made. */
    ghost method Record(r: Request, trail: Trail, p: Phase, call: Call, m: Moment) returns (next: Trail)
      requires trail.Valid(r) && Sound(r, trail.Last()) && trail.Last().phase == p
      requires Allowed(r, trail.Last().store, p, call) && m == After(r, trail.Last().store, p, call)
      requires m.store == Current()
      ensures Stands(r, next, m.phase) && next.moments[0] == trail.moments[0]
      ensures trail.Last().store.manifest.Some? ==> manifest == trail.Last().store.manifest
    {
      ActKeeps(r, trail.Last(), Mine(call), m);
      ThenValid(r, trail, Mine(call), m);
      next := trail.Then(Mine(call), m);
    }

    method CopyContent(id: string, sha: Digest, fails: bool, written: bool) returns (ok: bool)
      requires id in staging
      modifies this`contents
      ensures ok == !fails
      ensures contents == if ok || written then old(contents)[sha := staging[id]] else old(contents)
    {
      ok := !fails;
      if ok || written {
        contents := contents[sha := staging[id]];
      }
    }

    /** `Ok` tells whether the manifest was written; a retry after a lost answer is refused. */
    method PutIfAbsent(d: Descriptor, fault: PutFault) returns (r: Result<bool, Failure>)
      modifies this`manifest
      ensures manifest == if old(manifest) == None && fault != NotWritten then Some(d) else old(manifest)
      ensures r == match OutcomeOf(old(manifest), fault)
                   case Written => Ok(true)
                   case Present => Ok(false)
                   case Retried => Ok(false)
                   case Unknown => Err(StoreError)
                   case Failed => Err(StoreError)
    {
      if fault == NotWritten {
        return Err(StoreError);
      }
      if manifest.Some? {
        return Ok(false);
      }
      manifest := Some(d);
      match fault {
        case NoFault => r := Ok(true);
        case LostThenRetried => r := Ok(false);
        case AnswerLost => r := Err(StoreError);
      }
    }

    method RemoveContent(sha: Digest, fails: bool)
      modifies this`contents
      ensures contents == if fails then old(contents) else old(contents) - {sha}
    {
      if !fails {
        contents := contents - {sha};
      }
    }

    /** The branch of a writer whose put was refused. */
    method AnswerRefusal(r: Request, mine: Descriptor, recheckFails: bool, removeFails: bool, ghost trail: Trail)
      returns (answer: Answer, ghost next: Trail)
      requires Stands(r, trail, Rechecking(mine))
      modifies this
      ensures Stands(r, next, Finishing(answer)) && next.moments[0] == trail.moments[0]
      ensures manifest == old(manifest)
      ensures answer == if recheckFails then Err(StoreError) else MatchMine(manifest.value, mine)
    {
      next := Interfere(r, trail, Rechecking(mine));
      if recheckFails {
        answer := Err(StoreError);
        next := Record(r, next, Rechecking(mine), FailLookup, Moment(Current(), Finishing(answer)));
        return;
      }
      var existing := manifest.value;      // a manifest once there stays, so this is never missing
      answer := MatchMine(existing, mine);
      next := Record(r, next, Rechecking(mine), Recheck, Moment(Current(), AfterRefusal(manifest, mine)));
      if answer.Err? && existing.sha256 != mine.sha256 {
        next := Interfere(r, next, Removing(mine));
        RemoveContent(mine.sha256, removeFails);
        next := Record(r, next, Removing(mine), Remove(!removeFails), Moment(Current(), Finishing(answer)));
      }
    }

    /** The conditional put of the manifest, and what follows a refusal. */
    method PutManifest(r: Request, mine: Descriptor, faults: Faults, ghost trail: Trail)
      returns (answer: Answer, ghost next: Trail)
      requires Stands(r, trail, Putting(mine))
      modifies this
      ensures Stands(r, next, Finishing(answer)) && next.moments[0] == trail.moments[0]
      ensures old(manifest).Some? ==> manifest == old(manifest)
      ensures answer == Err(StoreError) ==> faults.put in {AnswerLost, NotWritten} || faults.recheck
    {
      next := Interfere(r, trail, Putting(mine));
      ghost var outcome := OutcomeOf(manifest, faults.put);
      ghost var m := AfterPut(Current(), mine, outcome);
      var put := PutIfAbsent(mine, faults.put);
      next := Record(r, next, Putting(mine), Put(outcome), m);
      match put {
        case Err(e) => answer := Err(e);
        case Ok(true) => answer := Ok(mine);
        case Ok(false) => answer, next := AnswerRefusal(r, mine, faults.recheck, faults.remove, next);
      }
    }

    /**
      Whatever calls fail and whatever others do in between, the execution is a trail from entering
      `_commit` to its answer, so every own call is a step of the protocol.  A success is the
      manifest and fits the request, a conflict is over a manifest that differs, an error has a
      failed call behind it; the manifest has its content and once there never changes.
     */
    method Commit(r: Request, mine: Descriptor, faults: Faults) returns (answer: Answer, ghost trail: Trail)
      requires Own(r, mine) && Staged(staging, r) && StoreInv(Current())
      modifies this
      ensures trail.Valid(r) && trail.moments[0] == Moment(old(Current()), Inspecting(mine))
      ensures trail.Last() == Moment(Current(), Finishing(answer))
      ensures StoreInv(Current()) && AnswerInv(manifest, r, answer)
      ensures old(manifest).Some? ==> manifest == old(manifest)
      ensures answer == Err(StoreError) ==>
                faults.look || faults.copy || faults.put in {AnswerLost, NotWritten} || faults.recheck
    {
      trail := Trail([Moment(Current(), Inspecting(mine))], []);
      trail := Interfere(r, trail, Inspecting(mine));
      if faults.look {
        answer := Err(StoreError);
        trail := Record(r, trail, Inspecting(mine), FailLookup, Moment(Current(), Finishing(answer)));
        return;
      }
      if manifest.Some? {
        answer := MatchMine(manifest.value, mine);
        trail := Record(r, trail, Inspecting(mine), Inspect, Moment(Current(), Finishing(answer)));
        return;
      }
      trail := Record(r, trail, Inspecting(mine), Inspect, Moment(Current(), Copying(mine)));
      trail := Interfere(r, trail, Copying(mine));
      ghost var call := Copy(!faults.copy, !faults.copy || faults.copyWritten);
      ghost var m := After(r, Current(), Copying(mine), call);
      var copied := CopyContent(r.uploadId, mine.sha256, faults.copy, faults.copyWritten);
      trail := Record(r, trail, Copying(mine), call, m);
      if copied {
        answer, trail := PutManifest(r, mine, faults, trail);
      } else {
        answer := Err(StoreError);
      }
    }
  }
}
