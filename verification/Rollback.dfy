/**
 Rollback and restore (internal/api/handlers/apps.go, Rollback and Restore; internal/git/gitops.go): three
 stores - Argo's target revisions, the branches of the GitOps repository and its history file - updated one
 after the other, where every external call may fail, and a failed call may have taken effect all the same.

 One request runs at a time. A step is one external call; the class `Platform` is the handlers' own code.
 */
module Rollback {
  import opened Common

  type App = string
  type Sha = string

  /** A branch or target revision: `main`, `rollback/<suffix>`, or any other text. */
  datatype Ref = Main | Branch(app: App) | Other(name: string)

  datatype Kind = RollBack | Restore

  /**
   One line of the history file. `revision` and `image` are the previous ones for a rollback and the ones
   restored to for a restore.
   */
  datatype Entry = Entry(kind: Kind, targetRevision: Sha, revision: string, image: string,
                         reason: string, branch: Ref, initiatedBy: string)

  datatype AppRecord = AppRecord(status: string, active: Option<Entry>, history: seq<Entry>)

  const FRESH := AppRecord("normal", None, [])

  /** How an external write went: done, done although an error came back, or not done. */
  datatype Effect = Done | Lost | Refused

  predicate Applied(e: Effect) { e != Refused }

  // ----- requests -----

  /** A Restore request has no target revision. */
  datatype Request = Request(kind: Kind, app: App, sha: Sha, reason: string, initiator: string)

  predicate ValidSha(s: Sha) {
    |s| == 40 && forall c <- s :: 'a' <= c <= 'f' || '0' <= c <= '9'
  }

  predicate WellFormed(r: Request) {
    (r.kind.RollBack? ==> ValidSha(r.sha)) && r.reason != ""
  }

  function Normalize(r: Request): Request {
    if r.initiator == "" then r.(initiator := "api") else r
  }

  // ----- the stores and the request in flight -----

  /** What the handler has read about the app: its deployed revision and image. */
  datatype Phase =
    | Free(status: int)                                        // no request; the last reply
    | Received(r: Request)
    | Found(r: Request, revision: string, image: string)       // the Application exists
    | Cleared(r: Request, revision: string, image: string)     // the conflict test passed
    | Known(r: Request, revision: string, image: string)       // the target commit exists
    | Pushed(r: Request, revision: string, image: string)      // the branch is pushed
    | Patched(r: Request, revision: string, image: string)     // Argo has the new target
    | Recorded(r: Request)                                     // restore: history pushed, branch still to move

  datatype State = State(
    target: map<App, Ref>,          // Argo CD target revisions
    branches: map<Ref, Sha>,        // remote refs
    commits: set<Sha>,              // commits in the repository
    file: map<App, AppRecord>,      // rollbacks.yaml on main
    phase: Phase,
    pushed: map<App, Sha>,          // history: the commit of the last branch push by a Rollback
    patches: map<App, seq<Kind>>,   // history: the effective target patches
    marks: map<App, seq<nat>>)      // history: for each recorded entry, the patch it records

  function Patches(s: State, app: App): seq<Kind> { if app in s.patches then s.patches[app] else [] }

  function Marks(s: State, app: App): seq<nat> { if app in s.marks then s.marks[app] else [] }

  function RecordOf(file: map<App, AppRecord>, app: App): AppRecord { if app in file then file[app] else FRESH }

  datatype Action =
    | Receive(r: Request)
    | GetApp(ok: bool, revision: string, image: string)
    | ReadTarget(ok: bool)
    | Validate(ok: bool)
    | PushBranch(e: Effect)
    | PatchTarget(e: Effect)
    | Record(e: Effect, commit: Sha)
    | MoveBranch(e: Effect)

  /** The error of reading the target is discarded: a failed read looks empty. */
  function SeenTarget(s: State, app: App, ok: bool): Ref {
    if ok && app in s.target then s.target[app] else Other("")
  }

  function EntryFor(r: Request, revision: string, image: string): Entry {
    if r.kind.RollBack?
    then Entry(RollBack, r.sha, revision, image, r.reason, Branch(r.app), r.initiator)
    else Entry(Restore, "", revision, image, r.reason, Other(""), r.initiator)
  }

  /** RecordRollback and RecordRestore on the file: append, set status and active entry. */
  function Appended(file: map<App, AppRecord>, app: App, e: Entry): map<App, AppRecord> {
    var before := RecordOf(file, app);
    file[app := AppRecord(if e.kind.RollBack? then "rollback" else "normal",
                          if e.kind.RollBack? then Some(e) else None,
                          before.history + [e])]
  }

  function NewTarget(r: Request): Ref {
    if r.kind.RollBack? then Branch(r.app) else Main
  }

  function WithPatch(s: State, r: Request): State {
    s.(target := s.target[r.app := NewTarget(r)], patches := s.patches[r.app := Patches(s, r.app) + [r.kind]])
  }

  function WithRecord(s: State, r: Request, e: Entry, commit: Sha): State {
    s.(file := Appended(s.file, r.app, e),
       branches := s.branches[Main := commit], commits := s.commits + {commit},
       marks := s.marks[r.app := Marks(s, r.app) + [if |Patches(s, r.app)| > 0 then |Patches(s, r.app)| - 1 else 0]])
  }

  function WithPush(s: State, r: Request): State {
    s.(branches := s.branches[Branch(r.app) := r.sha], pushed := s.pushed[r.app := r.sha])
  }

  function WithMove(s: State, r: Request): State {
    if Main in s.branches then s.(branches := s.branches[Branch(r.app) := s.branches[Main]]) else s
  }

  function Accept(s: State, r: Request): State {
    s.(phase := if WellFormed(r) then Received(Normalize(r)) else Free(400))
  }

  function Look(s: State, ok: bool, revision: string, image: string): State
    requires s.phase.Received?
  {
    s.(phase := if ok && s.phase.r.app in s.target then Found(s.phase.r, revision, image) else Free(404))
  }

  /** Rollback refuses an app already on a rollback branch, Restore one that is not. */
  function Test(s: State, ok: bool): State
    requires s.phase.Found?
  {
    var p := s.phase;
    s.(phase := if SeenTarget(s, p.r.app, ok).Branch? == p.r.kind.RollBack? then Free(409)
                else Cleared(p.r, p.revision, p.image))
  }

  function Check(s: State, ok: bool): State
    requires s.phase.Cleared?
  {
    var p := s.phase;
    s.(phase := if !ok then Free(500)
                else if p.r.sha !in s.commits then Free(422)
                else Known(p.r, p.revision, p.image))
  }

  function Push(s: State, e: Effect): State
    requires s.phase.Known?
  {
    var p := s.phase;
    (if Applied(e) then WithPush(s, p.r) else s)
      .(phase := if e.Done? then Pushed(p.r, p.revision, p.image) else Free(500))
  }

  function Patch(s: State, e: Effect): State
    requires s.phase.Pushed? || s.phase.Cleared?
  {
    var p := s.phase;
    (if Applied(e) then WithPatch(s, p.r) else s)
      .(phase := if e.Done? then Patched(p.r, p.revision, p.image) else Free(500))
  }

  /** A failed record is only logged. */
  function Note(s: State, e: Effect, commit: Sha): State
    requires s.phase.Patched?
  {
    var p := s.phase;
    (if Applied(e) then WithRecord(s, p.r, EntryFor(p.r, p.revision, p.image), commit) else s)
      .(phase := if e.Done? && p.r.kind.Restore? then Recorded(p.r) else Free(200))
  }

  function FollowMain(s: State, e: Effect): State
    requires s.phase.Recorded?
  {
    (if Applied(e) then WithMove(s, s.phase.r) else s).(phase := Free(200))
  }

  /** A step whose turn it is not changes nothing. */
  function Step(s: State, a: Action): State {
    var p := s.phase;
    match a
    case Receive(r) => if p.Free? then Accept(s, r) else s
    case GetApp(ok, revision, image) => if p.Received? then Look(s, ok, revision, image) else s
    case ReadTarget(ok) => if p.Found? then Test(s, ok) else s
    case Validate(ok) => if p.Cleared? && p.r.kind.RollBack? then Check(s, ok) else s
    case PushBranch(e) => if p.Known? then Push(s, e) else s
    case PatchTarget(e) => if p.Pushed? || (p.Cleared? && p.r.kind.Restore?) then Patch(s, e) else s
    case Record(e, commit) => if p.Patched? then Note(s, e, commit) else s
    case MoveBranch(e) => if p.Recorded? then FollowMain(s, e) else s
  }

  function Run(s: State, actions: seq<Action>): State {
    if actions == [] then s else Step(Run(s, actions[..|actions| - 1]), actions[|actions| - 1])
  }

  // ----- safety: a rollback target always has its branch -----

  /** If Argo follows app's rollback branch, the branch exists and is where the last Rollback pushed it. */
  ghost predicate Backed(s: State, app: App) {
    app in s.target && s.target[app] == Branch(app) ==>
      && Branch(app) in s.branches && app in s.pushed
      && s.branches[Branch(app)] == s.pushed[app] && s.pushed[app] in s.commits && ValidSha(s.pushed[app])
  }

  ghost predicate PhaseInv(s: State) {
    match s.phase
    case Free(_) => true
    case Received(r) => WellFormed(r)
    case Found(r, _, _) => WellFormed(r) && r.app in s.target
    case Cleared(r, _, _) => WellFormed(r) && r.app in s.target && (r.kind.Restore? ==> s.target[r.app].Branch?)
    case Known(r, _, _) => r.kind.RollBack? && WellFormed(r) && r.app in s.target && r.sha in s.commits
    case Pushed(r, _, _) =>
      && r.kind.RollBack? && WellFormed(r) && r.app in s.target && r.sha in s.commits
      && Branch(r.app) in s.branches && s.branches[Branch(r.app)] == r.sha
      && r.app in s.pushed && s.pushed[r.app] == r.sha
    case Patched(r, _, _) =>
      && r.app in s.target && s.target[r.app] == NewTarget(r)
      && (r.kind.RollBack? ==> Branch(r.app) in s.branches && s.branches[Branch(r.app)] == r.sha)
    case Recorded(r) => r.kind.Restore? && r.app in s.target && s.target[r.app] == Main && Main in s.branches
  }

  ghost predicate Safe(s: State) {
    && PhaseInv(s)
    && (forall app :: Backed(s, app))
  }

  lemma PushKeeps(s: State, e: Effect, app: App)
    requires s.phase.Known? && PhaseInv(s) && Backed(s, app)
    ensures Backed(Push(s, e), app) && PhaseInv(Push(s, e))
  {
  }

  lemma PatchKeeps(s: State, e: Effect, app: App)
    requires s.phase.Pushed? || (s.phase.Cleared? && s.phase.r.kind.Restore?)
    requires PhaseInv(s) && Backed(s, app)
    ensures Backed(Patch(s, e), app) && PhaseInv(Patch(s, e))
  {
  }

  lemma NoteKeeps(s: State, e: Effect, commit: Sha, app: App)
    requires s.phase.Patched? && PhaseInv(s) && Backed(s, app)
    ensures Backed(Note(s, e, commit), app) && PhaseInv(Note(s, e, commit))
  {
  }

  lemma FollowMainKeeps(s: State, e: Effect, app: App)
    requires s.phase.Recorded? && PhaseInv(s) && Backed(s, app)
    ensures Backed(FollowMain(s, e), app) && PhaseInv(FollowMain(s, e))
  {
  }

  lemma StepKeeps(s: State, a: Action, app: App)
    requires PhaseInv(s) && Backed(s, app)
    ensures PhaseInv(Step(s, a)) && Backed(Step(s, a), app)
  {
    if Step(s, a) != s {
      match a
      case PushBranch(e) => PushKeeps(s, e, app);
      case PatchTarget(e) => PatchKeeps(s, e, app);
      case Record(e, commit) => NoteKeeps(s, e, commit, app);
      case MoveBranch(e) => FollowMainKeeps(s, e, app);
      case _ =>
    }
  }

  lemma StepKeepsSafe(s: State, a: Action)
    requires Safe(s)
    ensures Safe(Step(s, a))
  {
    forall app ensures PhaseInv(Step(s, a)) && Backed(Step(s, a), app) {
      assert Backed(s, app);
      StepKeeps(s, a, app);
    }
  }

  /**
   In every run of requests, with any call failing in any way: whenever Argo follows `rollback/<app>`, that
   branch exists and points at the validated commit of the last Rollback that pushed it - also between the
   steps of a request.
   */
  lemma {:induction false} AlwaysSafe(s: State, actions: seq<Action>)
    requires Safe(s)
    ensures Safe(Run(s, actions))
    decreases |actions|
  {
    if actions != [] {
      AlwaysSafe(s, actions[..|actions| - 1]);
      StepKeepsSafe(Run(s, actions[..|actions| - 1]), actions[|actions| - 1]);
    }
  }

  /** The two ways a rollback branch moves: a Rollback pushes it, or a Restore moves it after Argo has left it. */
  lemma BranchMovesOnlyWhenLeft(s: State, actions: seq<Action>, a: Action, app: App)
    requires Safe(s)
    requires var u := Run(s, actions);
             var v := Step(u, a);
             && Branch(app) in u.branches && Branch(app) in v.branches
             && u.branches[Branch(app)] != v.branches[Branch(app)]
    ensures var u := Run(s, actions);
            var v := Step(u, a);
            || (a.MoveBranch? && app in u.target && u.target[app] == Main
                && Main in u.branches && v.branches[Branch(app)] == u.branches[Main])
            || (a.PushBranch? && app in v.pushed && v.branches[Branch(app)] == v.pushed[app])
  {
    AlwaysSafe(s, actions);
  }

  // ----- alternation of the effective patches -----

  /** A platform before its first request: no app is on a rollback branch, nothing is recorded. */
  ghost predicate Start(s: State) {
    && s.phase.Free? && (forall app :: app in s.target ==> !s.target[app].Branch?)
    && s.file == map[] && s.pushed == map[] && s.patches == map[] && s.marks == map[]
  }

  lemma StartIsSafe(s: State)
    requires Start(s)
    ensures Safe(s)
  {
  }

  ghost predicate Alternating(ks: seq<Kind>) {
    forall i :: 0 <= i < |ks| ==> ks[i] == if i % 2 == 0 then RollBack else Restore
  }

  /** Argo is on a rollback branch exactly when the last effective patch was a Rollback. */
  ghost predicate Follows(s: State, app: App) {
    var ks := Patches(s, app);
    app in s.target ==> (s.target[app].Branch? <==> ks != [] && ks[|ks| - 1].RollBack?)
  }

  lemma PatchFollows(s: State, e: Effect, app: App)
    requires s.phase.Pushed? || (s.phase.Cleared? && s.phase.r.kind.Restore?)
    requires Follows(s, app)
    ensures Follows(Patch(s, e), app)
  {
  }

  lemma OnlyPatchRetargets(s: State, a: Action)
    requires !a.PatchTarget?
    ensures Step(s, a).target == s.target && Step(s, a).patches == s.patches
  {
  }

  lemma StepFollows(s: State, a: Action, app: App)
    requires Follows(s, app)
    ensures Follows(Step(s, a), app)
  {
    if a.PatchTarget? {
      if Step(s, a) != s { PatchFollows(s, a.e, app); }
    } else {
      OnlyPatchRetargets(s, a);
    }
  }

  lemma {:induction false} AlwaysFollows(s: State, actions: seq<Action>, app: App)
    requires Start(s)
    ensures Follows(Run(s, actions), app)
    decreases |actions|
  {
    if actions != [] {
      AlwaysFollows(s, actions[..|actions| - 1], app);
      StepFollows(Run(s, actions[..|actions| - 1]), actions[|actions| - 1], app);
    }
  }

  ghost predicate ReadsSucceed(actions: seq<Action>) {
    forall a <- actions :: a.ReadTarget? ==> a.ok
  }

  /** With a truthful read, a Rollback past its conflict test has an app that is not on a rollback branch. */
  ghost predicate Sighted(s: State) {
    var p := s.phase;
    (p.Cleared? || p.Known? || p.Pushed?) && p.r.kind.RollBack? && p.r.app in s.target ==> !s.target[p.r.app].Branch?
  }

  lemma StepSighted(s: State, a: Action)
    requires PhaseInv(s) && Sighted(s) && (a.ReadTarget? ==> a.ok)
    ensures Sighted(Step(s, a))
  {
  }

  lemma ParityStep(ks: seq<Kind>, k: Kind)
    requires Alternating(ks)
    ensures Alternating(ks + [k]) <==> (k.RollBack? <==> ks == [] || ks[|ks| - 1].Restore?)
  {
    assert (ks + [k])[|ks|] == k;
    assert forall i :: 0 <= i < |ks| ==> (ks + [k])[i] == ks[i];
  }

  lemma PatchAlternates(s: State, e: Effect, app: App)
    requires (s.phase.Pushed? || (s.phase.Cleared? && s.phase.r.kind.Restore?)) && s.phase.r.app == app
    requires PhaseInv(s) && Follows(s, app) && Applied(e) && Alternating(Patches(s, app))
    ensures Alternating(Patches(Patch(s, e), app)) <==>
            !(s.phase.r.kind.RollBack? && app in s.target && s.target[app].Branch?)
  {
    ParityStep(Patches(s, app), s.phase.r.kind);
  }

  /**
   In any run the next effective patch keeps the alternation, unless it is a Rollback of an app that is already
   on a rollback branch; that takes a failed target read.
   */
  lemma NextPatchAlternates(s: State, actions: seq<Action>, e: Effect)
    requires Start(s)
    requires var u := Run(s, actions); u.phase.Pushed? || (u.phase.Cleared? && u.phase.r.kind.Restore?)
    requires var u := Run(s, actions); Applied(e) && Alternating(Patches(u, u.phase.r.app))
    ensures var u := Run(s, actions);
            var app := u.phase.r.app;
            Alternating(Patches(Step(u, PatchTarget(e)), app)) <==>
            !(u.phase.r.kind.RollBack? && app in u.target && u.target[app].Branch?)
  {
    var u := Run(s, actions);
    StartIsSafe(s);
    AlwaysSafe(s, actions);
    AlwaysFollows(s, actions, u.phase.r.app);
    PatchAlternates(u, e, u.phase.r.app);
  }

  lemma StepAlternates(s: State, a: Action, app: App)
    requires PhaseInv(s) && Sighted(s) && Follows(s, app) && Alternating(Patches(s, app))
    ensures Alternating(Patches(Step(s, a), app))
  {
    if a.PatchTarget? && !s.phase.Free? { ParityStep(Patches(s, app), s.phase.r.kind); }
  }

  /** When no target read fails, effective patches alternate, starting with a Rollback - lost replies included. */
  lemma {:induction false} PatchesAlternate(s: State, actions: seq<Action>, app: App)
    requires Start(s) && ReadsSucceed(actions)
    ensures Alternating(Patches(Run(s, actions), app)) && Sighted(Run(s, actions))
    decreases |actions|
  {
    if actions != [] {
      var before, a := actions[..|actions| - 1], actions[|actions| - 1];
      assert a in actions;
      PatchesAlternate(s, before, app);
      StartIsSafe(s);
      AlwaysSafe(s, before);
      AlwaysFollows(s, before, app);
      StepAlternates(Run(s, before), a, app);
      StepSighted(Run(s, before), a);
    }
  }

  lemma RunSplit(s: State, before: seq<Action>, a: Action)
    ensures Run(s, before + [a]) == Step(Run(s, before), a)
  {
    assert (before + [a])[..|before + [a]| - 1] == before;
  }

  // ----- the history file -----

  ghost predicate Increasing(marks: seq<nat>) {
    forall i, j :: 0 <= i < j < |marks| ==> marks[i] < marks[j]
  }

  /** The recorded entries are a subsequence of the effective patches: entry i records patch marks[i]. */
  ghost predicate Subsequence(history: seq<Entry>, marks: seq<nat>, patches: seq<Kind>) {
    && |marks| == |history| && Increasing(marks)
    && forall i :: 0 <= i < |history| ==> marks[i] < |patches| && patches[marks[i]] == history[i].kind
  }

  /** The status line, the active entry and the last entry tell the same story. */
  ghost predicate Coherent(r: AppRecord) {
    var h := r.history;
    && (r.status == "rollback" <==> h != [] && h[|h| - 1].kind.RollBack?)
    && (r.status == "rollback" || r.status == "normal")
    && r.active == if h != [] && h[|h| - 1].kind.RollBack? then Some(h[|h| - 1]) else None
  }

  ghost predicate HistoryInv(s: State, app: App) {
    && Coherent(RecordOf(s.file, app))
    && Subsequence(RecordOf(s.file, app).history, Marks(s, app), Patches(s, app))
    && (s.phase.Patched? && s.phase.r.app == app ==>
          var ks := Patches(s, app);
          && ks != [] && ks[|ks| - 1] == s.phase.r.kind
          && forall i :: 0 <= i < |Marks(s, app)| ==> Marks(s, app)[i] < |ks| - 1)
  }

  /** What HistoryInv is about did not change, and no patch awaits its record. */
  lemma HistoryUntouched(s: State, t: State, app: App)
    requires HistoryInv(s, app)
    requires RecordOf(t.file, app) == RecordOf(s.file, app) && Marks(t, app) == Marks(s, app)
    requires Patches(t, app) == Patches(s, app) && (t.phase.Patched? ==> t.phase.r.app != app)
    ensures HistoryInv(t, app)
  {
  }

  lemma SubsequenceWaits(h: seq<Entry>, marks: seq<nat>, ks: seq<Kind>, k: Kind)
    requires Subsequence(h, marks, ks)
    ensures Subsequence(h, marks, ks + [k]) && forall i :: 0 <= i < |marks| ==> marks[i] < |ks|
  {
  }

  lemma PatchOwnApp(s: State, e: Effect)
    requires s.phase.Pushed? || (s.phase.Cleared? && s.phase.r.kind.Restore?)
    requires HistoryInv(s, s.phase.r.app) && Applied(e)
    ensures HistoryInv(Patch(s, e), s.phase.r.app)
  {
    var t, app, ks := Patch(s, e), s.phase.r.app, Patches(s, s.phase.r.app);
    SubsequenceWaits(RecordOf(s.file, app).history, Marks(s, app), ks, s.phase.r.kind);
    assert Patches(t, app) == ks + [s.phase.r.kind];
    assert Marks(t, app) == Marks(s, app) && RecordOf(t.file, app) == RecordOf(s.file, app);
  }

  lemma PatchRecorded(s: State, e: Effect, app: App)
    requires s.phase.Pushed? || (s.phase.Cleared? && s.phase.r.kind.Restore?)
    requires HistoryInv(s, app)
    ensures HistoryInv(Patch(s, e), app)
  {
    if Applied(e) && s.phase.r.app == app {
      PatchOwnApp(s, e);
    } else {
      HistoryUntouched(s, Patch(s, e), app);
    }
  }

  lemma SubsequenceExtend(h: seq<Entry>, marks: seq<nat>, ks: seq<Kind>, e: Entry)
    requires Subsequence(h, marks, ks) && ks != [] && ks[|ks| - 1] == e.kind
    requires forall i :: 0 <= i < |marks| ==> marks[i] < |ks| - 1
    ensures Subsequence(h + [e], marks + [|ks| - 1], ks)
  {
  }

  lemma NoteOwnApp(s: State, e: Effect, commit: Sha)
    requires s.phase.Patched? && HistoryInv(s, s.phase.r.app) && Applied(e)
    ensures HistoryInv(Note(s, e, commit), s.phase.r.app)
  {
    var p, t, app := s.phase, Note(s, e, commit), s.phase.r.app;
    var entry := EntryFor(p.r, p.revision, p.image);
    SubsequenceExtend(RecordOf(s.file, app).history, Marks(s, app), Patches(s, app), entry);
    assert RecordOf(t.file, app).history == RecordOf(s.file, app).history + [entry];
    assert Marks(t, app) == Marks(s, app) + [|Patches(s, app)| - 1];
  }

  lemma NoteRecorded(s: State, e: Effect, commit: Sha, app: App)
    requires s.phase.Patched? && HistoryInv(s, app)
    ensures HistoryInv(Note(s, e, commit), app)
  {
    if s.phase.r.app == app && Applied(e) {
      NoteOwnApp(s, e, commit);
    } else {
      HistoryUntouched(s, Note(s, e, commit), app);
    }
  }

  lemma EarlyStepWrites(s: State, a: Action)
    requires a.Receive? || a.GetApp? || a.ReadTarget? || a.Validate?
    ensures var t := Step(s, a);
            t == s || (t == s.(phase := t.phase) && !t.phase.Patched?)
  {
  }

  lemma BranchStepWrites(s: State, a: Action)
    requires a.PushBranch? || a.MoveBranch?
    ensures var t := Step(s, a);
            t == s || (t.file == s.file && t.marks == s.marks && t.patches == s.patches && !t.phase.Patched?)
  {
  }

  lemma OnlyRecordWrites(s: State, a: Action)
    requires !a.PatchTarget? && !a.Record?
    ensures var t := Step(s, a);
            && t.file == s.file && t.marks == s.marks && t.patches == s.patches
            && (t.phase.Patched? ==> t == s)
  {
    if a.PushBranch? || a.MoveBranch? { BranchStepWrites(s, a); } else { EarlyStepWrites(s, a); }
  }

  lemma StepRecorded(s: State, a: Action, app: App)
    requires HistoryInv(s, app)
    ensures HistoryInv(Step(s, a), app)
  {
    if Step(s, a) != s {
      match a
      case PatchTarget(e) => PatchRecorded(s, e, app);
      case Record(e, commit) => NoteRecorded(s, e, commit, app);
      case _ =>
        OnlyRecordWrites(s, a);
        HistoryUntouched(s, Step(s, a), app);
    }
  }

  /**
   In every run, whatever fails: an app's recorded history is a subsequence of its effective patches, and its
   status is "rollback" if and only if an active rollback is set if and only if the last entry is a rollback.
   */
  lemma {:induction false} HistoryIsTrue(s: State, actions: seq<Action>, app: App)
    requires Start(s)
    ensures HistoryInv(Run(s, actions), app)
    decreases |actions|
  {
    if actions != [] {
      HistoryIsTrue(s, actions[..|actions| - 1], app);
      StepRecorded(Run(s, actions[..|actions| - 1]), actions[|actions| - 1], app);
    }
  }

  /** History only grows, by the entry of the request in flight; every other app's record stays as it is. */
  lemma HistoryIsAppendOnly(s: State, a: Action, app: App)
    ensures RecordOf(s.file, app).history <= RecordOf(Step(s, a).file, app).history
    ensures RecordOf(Step(s, a).file, app) != RecordOf(s.file, app) ==>
              && s.phase.Patched? && s.phase.r.app == app
              && RecordOf(Step(s, a).file, app).history ==
                 RecordOf(s.file, app).history + [EntryFor(s.phase.r, s.phase.revision, s.phase.image)]
  {
  }

  /**
   A recorded entry tells the truth about the other two stores: a rollback entry names the branch Argo follows
   and the commit it points at, a restore entry is written while Argo is on main.
   */
  lemma RecordMatchesStores(s: State, actions: seq<Action>, e: Effect, commit: Sha)
    requires Safe(s) && Run(s, actions).phase.Patched? && Applied(e)
    ensures var u := Run(s, actions);
            var app := u.phase.r.app;
            var h := RecordOf(Step(u, Record(e, commit)).file, app).history;
            && h != []
            && (h[|h| - 1].kind.RollBack? ==>
                  && h[|h| - 1].branch in u.branches && u.branches[h[|h| - 1].branch] == h[|h| - 1].targetRevision
                  && app in u.target && u.target[app] == h[|h| - 1].branch)
            && (h[|h| - 1].kind.Restore? ==> app in u.target && u.target[app] == Main)
  {
    AlwaysSafe(s, actions);
    HistoryIsAppendOnly(Run(s, actions), Record(e, commit), Run(s, actions).phase.r.app);
  }

  lemma {:induction false} HistoryGrows(s: State, before: seq<Action>, after: seq<Action>, app: App)
    ensures RecordOf(Run(s, before).file, app).history <= RecordOf(Run(s, before + after).file, app).history
    decreases |after|
  {
    if after == [] {
      assert before + after == before;
    } else {
      var init, a := after[..|after| - 1], after[|after| - 1];
      assert before + after == before + init + [a];
      HistoryGrows(s, before, init, app);
      RunSplit(s, before + init, a);
      HistoryIsAppendOnly(Run(s, before + init), a, app);
    }
  }

  // ----- the handlers -----

  /** How every external call of one request goes. */
  datatype Luck = Luck(app: bool, revision: string, image: string, read: bool, valid: bool,
                       push: Effect, patch: Effect, record: Effect, commit: Sha, move: Effect)

  /** The calls of one request, in order; those after an early reply find nothing to do. */
  function Script(r: Request, k: Luck): seq<Action> {
    [Receive(r), GetApp(k.app, k.revision, k.image), ReadTarget(k.read), Validate(k.valid), PushBranch(k.push),
     PatchTarget(k.patch), Record(k.record, k.commit), MoveBranch(k.move)]
  }

  /** Up to the conflict test. */
  function Intake(s: State, r: Request, k: Luck): State {
    Step(Step(Step(s, Receive(r)), GetApp(k.app, k.revision, k.image)), ReadTarget(k.read))
  }

  /** From the conflict test to the target patch. */
  function Switch(s: State, k: Luck): State {
    Step(Step(Step(s, Validate(k.valid)), PushBranch(k.push)), PatchTarget(k.patch))
  }

  /** The bookkeeping after the patch. */
  function Settle(s: State, k: Luck): State {
    Step(Step(s, Record(k.record, k.commit)), MoveBranch(k.move))
  }

  /** One whole request, as one state change. */
  function Serve(s: State, r: Request, k: Luck): State {
    Settle(Switch(Intake(s, r, k), k), k)
  }

  lemma RepliedIsOver(s: State, k: Luck)
    requires s.phase.Free?
    ensures Switch(s, k) == s && Settle(s, k) == s
  {
  }

  lemma IntakeReply(s: State, r: Request, k: Luck)
    requires s.phase.Free?
    ensures var n := Normalize(r);
            Intake(s, r, k) == s.(phase :=
              if !WellFormed(r) then Free(400)
              else if !k.app || n.app !in s.target then Free(404)
              else if SeenTarget(s, n.app, k.read).Branch? == n.kind.RollBack? then Free(409)
              else Cleared(n, k.revision, k.image))
  {
  }

  lemma SwitchForRollback(s: State, k: Luck)
    requires s.phase.Cleared? && s.phase.r.kind.RollBack?
    ensures var r := s.phase.r;
            var pushed := if Applied(k.push) then WithPush(s, r) else s;
            var patched := if Applied(k.patch) then WithPatch(pushed, r) else pushed;
            Switch(s, k) == if !k.valid then s.(phase := Free(500))
                            else if r.sha !in s.commits then s.(phase := Free(422))
                            else if !k.push.Done? then pushed.(phase := Free(500))
                            else patched.(phase := if k.patch.Done? then Patched(r, s.phase.revision, s.phase.image)
                                                   else Free(500))
  {
  }

  lemma SwitchForRestore(s: State, k: Luck)
    requires s.phase.Cleared? && s.phase.r.kind.Restore?
    ensures var r := s.phase.r;
            Switch(s, k) == (if Applied(k.patch) then WithPatch(s, r) else s)
                              .(phase := if k.patch.Done? then Patched(r, s.phase.revision, s.phase.image)
                                         else Free(500))
  {
  }

  lemma SettleForRollback(s: State, k: Luck)
    requires s.phase.Patched? && s.phase.r.kind.RollBack?
    ensures var p := s.phase;
            Settle(s, k) == (if Applied(k.record) then
                               WithRecord(s, p.r, EntryFor(p.r, p.revision, p.image), k.commit)
                             else s).(phase := Free(200))
  {
  }

  /** A Restore moves its branch only after the record call has come back without an error. */
  lemma SettleForRestore(s: State, k: Luck)
    requires s.phase.Patched? && s.phase.r.kind.Restore?
    ensures var p := s.phase;
            var noted := if Applied(k.record) then
                           WithRecord(s, p.r, EntryFor(p.r, p.revision, p.image), k.commit)
                         else s;
            Settle(s, k) == (if k.record.Done? && Applied(k.move) then WithMove(noted, p.r) else noted)
                              .(phase := Free(200))
  {
  }

  lemma SettleKeepsTarget(s: State, k: Luck)
    requires s.phase.Patched?
    ensures var t := Settle(s, k);
            && t.phase == Free(200) && t.target == s.target && t.patches == s.patches
            && (s.phase.r.kind.RollBack? && Branch(s.phase.r.app) in s.branches ==>
                  && Branch(s.phase.r.app) in t.branches
                  && t.branches[Branch(s.phase.r.app)] == s.branches[Branch(s.phase.r.app)])
  {
    if s.phase.r.kind.RollBack? { SettleForRollback(s, k); } else { SettleForRestore(s, k); }
  }

  /** t is s with r's patch made, and for a Rollback with the branch at the requested commit. */
  ghost predicate Switched(s: State, t: State, r: Request) {
    && Patches(t, r.app) == Patches(s, r.app) + [r.kind]
    && r.app in t.target && t.target[r.app] == NewTarget(r)
    && (r.kind.RollBack? ==> Branch(r.app) in t.branches && t.branches[Branch(r.app)] == r.sha)
  }

  lemma RollbackReply(s: State, k: Luck)
    requires s.phase.Cleared? && s.phase.r.kind.RollBack?
    ensures var v := Switch(s, k);
            if v.phase.Free? then v.phase.status in {422, 500} && (v.phase.status == 422 ==> v == s.(phase := v.phase))
            else v.phase.Patched? && v.phase.r == s.phase.r && Switched(s, v, s.phase.r)
  {
    SwitchForRollback(s, k);
  }

  lemma RestoreReply(s: State, k: Luck)
    requires s.phase.Cleared? && s.phase.r.kind.Restore?
    ensures var v := Switch(s, k);
            if v.phase.Free? then v.phase.status == 500
            else v.phase.Patched? && v.phase.r == s.phase.r && Switched(s, v, s.phase.r)
  {
    SwitchForRestore(s, k);
  }

  lemma SwitchReply(s: State, k: Luck)
    requires s.phase.Cleared?
    ensures var v := Switch(s, k);
            if v.phase.Free? then v.phase.status in {422, 500} && (v.phase.status == 422 ==> v == s.(phase := v.phase))
            else v.phase.Patched? && v.phase.r == s.phase.r && Switched(s, v, s.phase.r)
  {
    if s.phase.r.kind.RollBack? { RollbackReply(s, k); } else { RestoreReply(s, k); }
  }

  lemma SettledStaysSwitched(s: State, v: State, k: Luck)
    requires v.phase.Patched? && Switched(s, v, v.phase.r)
    ensures Settle(v, k).phase == Free(200) && Switched(s, Settle(v, k), v.phase.r)
  {
    SettleKeepsTarget(v, k);
  }

  /**
   What a reply tells the caller: a 4xx reply changed nothing; a 200 reply means the target was patched, once,
   and for a Rollback that the branch is at the requested commit.
   */
  lemma ReplyTells(s: State, r: Request, k: Luck)
    requires s.phase.Free?
    ensures var t := Serve(s, r, k);
            && t.phase.Free? && t.phase.status in {200, 400, 404, 409, 422, 500}
            && (t.phase.status < 500 && t.phase.status != 200 ==> t == s.(phase := t.phase))
            && (t.phase.status == 200 ==> Switched(s, t, Normalize(r)))
  {
    IntakeReply(s, r, k);
    var u := Intake(s, r, k);
    if u.phase.Free? {
      RepliedIsOver(u, k);
    } else {
      SwitchReply(u, k);
      var v := Switch(u, k);
      if v.phase.Free? { RepliedIsOver(v, k); } else { SettledStaysSwitched(u, v, k); }
    }
  }

  // ----- what a request does, spelled out -----

  /** The request passes the format test, the application is there, and the conflict test sees nothing wrong. */
  ghost predicate Admitted(s: State, r: Request, k: Luck) {
    && WellSpelled(r) && k.app && r.app in s.target
    && (r.kind.RollBack? <==> !(k.read && s.target[r.app].Branch?))
  }

  ghost predicate WellSpelled(r: Request) {
    && r.reason != ""
    && (r.kind.RollBack? ==> |r.sha| == 40 && forall c <- r.sha :: 'a' <= c <= 'f' || '0' <= c <= '9')
  }

  lemma IntakeExactly(s: State, r: Request, k: Luck)
    requires s.phase.Free?
    ensures Intake(s, r, k).phase.Cleared? <==> Admitted(s, r, k)
    ensures Admitted(s, r, k) ==>
              && Intake(s, r, k) == s.(phase := Intake(s, r, k).phase)
              && Intake(s, r, k).phase.revision == k.revision && Intake(s, r, k).phase.image == k.image
              && Intake(s, r, k).phase.r == r.(initiator := if r.initiator == "" then "api" else r.initiator)
    ensures !Admitted(s, r, k) ==>
              Intake(s, r, k) == s.(phase := Free(if !WellSpelled(r) then 400
                                                  else if !k.app || r.app !in s.target then 404 else 409))
  {
    IntakeReply(s, r, k);
  }

  /** Each reply, by what was asked and how the calls went. */
  lemma StatusTells(s: State, r: Request, k: Luck)
    requires s.phase.Free?
    ensures var reply := Serve(s, r, k).phase;
            var found := k.app && r.app in s.target;
            var known := k.valid && r.sha in s.commits;
            && reply.Free? && reply.status in {200, 400, 404, 409, 422, 500}
            && (reply == Free(400) <==> !WellSpelled(r))
            && (reply == Free(404) <==> WellSpelled(r) && !found)
            && (reply == Free(409) <==> WellSpelled(r) && found && !Admitted(s, r, k))
            && (reply == Free(422) <==> Admitted(s, r, k) && r.kind.RollBack? && k.valid && !known)
            && (reply == Free(200) <==>
                Admitted(s, r, k) && k.patch.Done? && (r.kind.RollBack? ==> known && k.push.Done?))
  {
    IntakeExactly(s, r, k);
    ReplyTells(s, r, k);
    var u := Intake(s, r, k);
    if Admitted(s, r, k) {
      SwitchExactly(u, k);
      if Switch(u, k).phase.Free? { RepliedIsOver(Switch(u, k), k); } else { SettleReplies(Switch(u, k), k); }
    } else {
      RepliedIsOver(u, k);
    }
  }

  lemma RollbackSwitches(u: State, k: Luck)
    requires u.phase.Cleared? && u.phase.r.kind.RollBack?
    ensures var v, r := Switch(u, k), u.phase.r;
            var known := k.valid && r.sha in u.commits;
            && v.phase == (if !known then Free(if k.valid then 422 else 500)
                           else if !k.push.Done? || !k.patch.Done? then Free(500)
                           else Patched(r, u.phase.revision, u.phase.image))
            && v.branches == (if known && k.push != Refused then u.branches[Branch(r.app) := r.sha] else u.branches)
            && v.target == (if known && k.push.Done? && k.patch != Refused then u.target[r.app := Branch(r.app)]
                            else u.target)
            && v.file == u.file && v.commits == u.commits
  {
    SwitchForRollback(u, k);
  }

  lemma RestoreSwitches(u: State, k: Luck)
    requires u.phase.Cleared? && u.phase.r.kind.Restore?
    ensures var v, r := Switch(u, k), u.phase.r;
            && v.phase == (if !k.patch.Done? then Free(500) else Patched(r, u.phase.revision, u.phase.image))
            && v.target == (if k.patch != Refused then u.target[r.app := Main] else u.target)
            && v.branches == u.branches && v.file == u.file && v.commits == u.commits
  {
    SwitchForRestore(u, k);
  }

  lemma SwitchExactly(u: State, k: Luck)
    requires u.phase.Cleared?
    ensures var v, r := Switch(u, k), u.phase.r;
            var known := k.valid && r.sha in u.commits;
            && v.phase == (if r.kind.RollBack? && !known then Free(if k.valid then 422 else 500)
                           else if (r.kind.RollBack? && !k.push.Done?) || !k.patch.Done? then Free(500)
                           else Patched(r, u.phase.revision, u.phase.image))
            && v.branches == (if r.kind.RollBack? && known && k.push != Refused
                              then u.branches[Branch(r.app) := r.sha] else u.branches)
            && v.target == (if (r.kind.RollBack? ==> known && k.push.Done?) && k.patch != Refused
                            then u.target[r.app := if r.kind.RollBack? then Branch(r.app) else Main] else u.target)
            && v.file == u.file && v.commits == u.commits
  {
    if u.phase.r.kind.RollBack? { RollbackSwitches(u, k); } else { RestoreSwitches(u, k); }
  }

  lemma SettleReplies(v: State, k: Luck)
    requires v.phase.Patched?
    ensures Settle(v, k).phase == Free(200)
  {
    SettleKeepsTarget(v, k);
  }

  /**
   A reply of 500 tells nothing for sure, but this much is certain: the history is untouched, and branch and target
   are as they were unless the very call that failed, or the one before it, has taken effect.
   */
  lemma FailureTells(s: State, r: Request, k: Luck)
    requires s.phase.Free? && Serve(s, r, k).phase == Free(500)
    ensures var t := Serve(s, r, k);
            var pushing := r.kind.RollBack? && k.valid && r.sha in s.commits;
            && t.file == s.file && t.commits == s.commits
            && t.branches == (if pushing && k.push != Refused then s.branches[Branch(r.app) := r.sha] else s.branches)
            && t.target == (if (r.kind.RollBack? ==> pushing && k.push.Done?) && k.patch.Lost?
                            then s.target[r.app := if r.kind.RollBack? then Branch(r.app) else Main] else s.target)
  {
    StatusTells(s, r, k);
    IntakeExactly(s, r, k);
    var u := Intake(s, r, k);
    SwitchExactly(u, k);
    if Switch(u, k).phase.Free? { RepliedIsOver(Switch(u, k), k); } else { SettleReplies(Switch(u, k), k); }
  }

  /** The history entry of a request, with what was read about the application. */
  function Written(r: Request, k: Luck): Entry {
    var who := if r.initiator == "" then "api" else r.initiator;
    match r.kind
    case RollBack => Entry(RollBack, r.sha, k.revision, k.image, r.reason, Branch(r.app), who)
    case Restore => Entry(Restore, "", k.revision, k.image, r.reason, Other(""), who)
  }

  function Remembered(s: State, app: App): seq<Entry> {
    if app in s.file then s.file[app].history else []
  }

  /** The record call, if it takes effect, appends the written entry and moves main. */
  lemma RecordExactly(v: State, n: Request, r: Request, k: Luck)
    requires n == r.(initiator := if r.initiator == "" then "api" else r.initiator)
    ensures var t, e := WithRecord(v, n, EntryFor(n, k.revision, k.image), k.commit), Written(r, k);
            && t.file == v.file[r.app := AppRecord(if r.kind.RollBack? then "rollback" else "normal",
                                                   if r.kind.RollBack? then Some(e) else None,
                                                   Remembered(v, r.app) + [e])]
            && t.branches == v.branches[Main := k.commit] && t.commits == v.commits + {k.commit} && t.target == v.target
  {
  }

  lemma RollbackSettles(v: State, r: Request, k: Luck)
    requires r.kind.RollBack?
    requires v.phase == Patched(r.(initiator := if r.initiator == "" then "api" else r.initiator), k.revision, k.image)
    ensures var t, e := Settle(v, k), Written(r, k);
            && t.target == v.target
            && (k.record == Refused ==> t.file == v.file && t.branches == v.branches && t.commits == v.commits)
            && (k.record != Refused ==>
                  && t.file == v.file[r.app := AppRecord("rollback", Some(e), Remembered(v, r.app) + [e])]
                  && t.branches == v.branches[Main := k.commit] && t.commits == v.commits + {k.commit})
  {
    RecordExactly(v, v.phase.r, r, k);
    SettleForRollback(v, k);
  }

  lemma RestoreSettles(v: State, r: Request, k: Luck)
    requires r.kind.Restore?
    requires v.phase == Patched(r.(initiator := if r.initiator == "" then "api" else r.initiator), k.revision, k.image)
    ensures var t, e := Settle(v, k), Written(r, k);
            && t.target == v.target
            && (k.record == Refused ==> t.file == v.file && t.branches == v.branches)
            && (k.record != Refused ==>
                  && t.file == v.file[r.app := AppRecord("normal", None, Remembered(v, r.app) + [e])]
                  && t.branches == if k.record.Done? && k.move != Refused
                                   then v.branches[Main := k.commit][Branch(r.app) := k.commit]
                                   else v.branches[Main := k.commit])
  {
    RecordExactly(v, v.phase.r, r, k);
    var noted := WithRecord(v, v.phase.r, EntryFor(v.phase.r, k.revision, k.image), k.commit);
    assert WithMove(noted, v.phase.r).branches == noted.branches[Branch(r.app) := k.commit];
    SettleForRestore(v, k);
  }

  /**
   A Rollback replied 200 has pointed Argo at the rollback branch and the branch at the requested commit, and - if
   the record got through - appended exactly this entry and made it the active one.
   */
  lemma RollbackDone(s: State, r: Request, k: Luck)
    requires s.phase.Free? && r.kind.RollBack? && Serve(s, r, k).phase == Free(200)
    ensures var t, e := Serve(s, r, k), Written(r, k);
            && t.target == s.target[r.app := Branch(r.app)]
            && (k.record == Refused ==>
                  t.branches == s.branches[Branch(r.app) := r.sha] && t.file == s.file && t.commits == s.commits)
            && (k.record != Refused ==>
                  && t.branches == s.branches[Branch(r.app) := r.sha][Main := k.commit]
                  && t.file == s.file[r.app := AppRecord("rollback", Some(e), Remembered(s, r.app) + [e])]
                  && t.commits == s.commits + {k.commit})
  {
    StatusTells(s, r, k);
    IntakeExactly(s, r, k);
    RollbackSwitches(Intake(s, r, k), k);
    RollbackSettles(Switch(Intake(s, r, k), k), r, k);
  }

  /**
   A Restore replied 200 has pointed Argo at main. If the record call came back without an error and the push after
   it took effect, the rollback branch and main both are at the recorded commit; otherwise the branch is as it was.
   */
  lemma RestoreDone(s: State, r: Request, k: Luck)
    requires s.phase.Free? && r.kind.Restore? && Serve(s, r, k).phase == Free(200)
    ensures var t, e, b := Serve(s, r, k), Written(r, k), Branch(r.app);
            && t.target == s.target[r.app := Main]
            && (k.record.Done? && k.move != Refused ==>
                  b in t.branches && Main in t.branches && t.branches[b] == t.branches[Main] == k.commit)
            && (!k.record.Done? || k.move == Refused ==>
                  && (b in t.branches <==> b in s.branches)
                  && (b in s.branches ==> t.branches[b] == s.branches[b]))
            && (forall x :: x != Main && x != b ==> (x in t.branches <==> x in s.branches))
            && (forall x :: x != Main && x != b && x in s.branches ==> t.branches[x] == s.branches[x])
            && t.file == (if k.record == Refused then s.file
                          else s.file[r.app := AppRecord("normal", None, Remembered(s, r.app) + [e])])
  {
    StatusTells(s, r, k);
    IntakeExactly(s, r, k);
    RestoreSwitches(Intake(s, r, k), k);
    RestoreSettles(Switch(Intake(s, r, k), k), r, k);
  }

  lemma RecordThenMove(u: State, commit: Sha, e: Effect)
    requires u.phase.Patched? && u.phase.r.kind.Restore?
    ensures var b := Branch(u.phase.r.app);
            var v := Step(Step(u, Record(Done, commit)), MoveBranch(e));
            && v.phase == Free(200)
            && v.branches == if e != Refused then u.branches[Main := commit][b := commit]
                             else u.branches[Main := commit]
  {
  }

  /** The same within any run: once recorded, a Restore's push brings the branch to the recorded commit on main. */
  lemma RestoreMovesBranch(s: State, actions: seq<Action>, commit: Sha, e: Effect)
    requires Run(s, actions).phase.Patched? && Run(s, actions).phase.r.kind.Restore?
    ensures var u := Run(s, actions);
            var b := Branch(u.phase.r.app);
            var v := Run(s, actions + [Record(Done, commit)] + [MoveBranch(e)]);
            && Main in v.branches && v.branches[Main] == commit
            && (e != Refused ==> b in v.branches && v.branches[b] == commit)
            && (e == Refused ==> (b in v.branches <==> b in u.branches)
                                 && (b in u.branches ==> v.branches[b] == u.branches[b]))
  {
    RunSplit(s, actions, Record(Done, commit));
    RunSplit(s, actions + [Record(Done, commit)], MoveBranch(e));
    RecordThenMove(Run(s, actions), commit, e);
  }

  class Platform {
    var target: map<App, Ref>
    var branches: map<Ref, Sha>
    var commits: set<Sha>
    var file: map<App, AppRecord>
    ghost var pushed: map<App, Sha>
    ghost var patches: map<App, seq<Kind>>
    ghost var marks: map<App, seq<nat>>

    ghost function View(p: Phase): State
      reads this
    {
      State(target, branches, commits, file, p, pushed, patches, marks)
    }

    /** Clone, set the branch to the commit, force-push it. */
    method CreateRollbackBranch(r: Request, e: Effect) returns (ok: bool)
      modifies this
      ensures ok == e.Done? && forall p :: View(p) == if Applied(e) then WithPush(old(View(p)), r) else old(View(p))
    {
      if Applied(e) {
        branches, pushed := branches[Branch(r.app) := r.sha], pushed[r.app := r.sha];
      }
      ok := e.Done?;
    }

    method PatchTargetRevision(r: Request, to: Ref, e: Effect) returns (ok: bool)
      requires to == NewTarget(r)
      modifies this
      ensures ok == e.Done? && forall p :: View(p) == if Applied(e) then WithPatch(old(View(p)), r) else old(View(p))
    {
      if Applied(e) {
        target := target[r.app := to];
        patches := patches[r.app := (if r.app in patches then patches[r.app] else []) + [r.kind]];
      }
      ok := e.Done?;
    }

    /** Clone main, read the file, append the entry, commit and push main. */
    method RecordEntry(r: Request, entry: Entry, e: Effect, commit: Sha) returns (ok: bool)
      modifies this
      ensures ok == e.Done?
      ensures forall p :: View(p) == if Applied(e) then WithRecord(old(View(p)), r, entry, commit) else old(View(p))
    {
      if Applied(e) {
        var before := if r.app in file then file[r.app] else FRESH;
        var status, active := "normal", None;
        if entry.kind.RollBack? {
          status, active := "rollback", Some(entry);
        }
        file := file[r.app := AppRecord(status, active, before.history + [entry])];
        branches, commits := branches[Main := commit], commits + {commit};
        ghost var ks := Patches(old(View(Free(0))), r.app);
        marks := marks[r.app := (if r.app in marks then marks[r.app] else []) + [if |ks| > 0 then |ks| - 1 else 0]];
      }
      ok := e.Done?;
    }

    /** RecordRestore with fastForwardBranch: record, then point the rollback branch at main and push it. */
    method RecordRestore(r: Request, entry: Entry, k: Luck) returns (ok: bool)
      requires r.kind.Restore? && entry == EntryFor(r, k.revision, k.image)
      modifies this
      ensures View(Free(200)) == Settle(old(View(Patched(r, k.revision, k.image))), k)
    {
      ok := RecordEntry(r, entry, k.record, k.commit);
      if !ok {
        return;
      }
      if Applied(k.move) && Main in branches {
        branches := branches[Branch(r.app) := branches[Main]];
      }
      ok := k.move.Done?;
    }

    /** The part both handlers begin with: validation, the Application, and the conflict test. */
    method Admit(req: Request, k: Luck) returns (status: int, r: Request)
      ensures Intake(View(Free(0)), req, k) ==
              View(if status == 0 then Cleared(r, k.revision, k.image) else Free(status))
      ensures r.kind == req.kind && status in {0, 400, 404, 409}
    {
      IntakeReply(View(Free(0)), req, k);
      r := req;
      if (r.kind.RollBack? && !ValidSha(r.sha)) || r.reason == "" {
        return 400, r;
      }
      if r.initiator == "" {
        r := r.(initiator := "api");
      }
      if !k.app || r.app !in target {
        return 404, r;
      }
      var current := if k.read then target[r.app] else Other("");
      if current.Branch? == r.kind.RollBack? {
        return 409, r;
      }
      status := 0;
    }

    method Rollback(req: Request, k: Luck) returns (status: int)
      requires req.kind.RollBack?
      modifies this
      ensures View(Free(status)) == Serve(old(View(Free(0))), req, k)
    {
      var reply, r := Admit(req, k);
      if reply != 0 {
        RepliedIsOver(View(Free(reply)), k);
        return reply;
      }
      ghost var s := View(Cleared(r, k.revision, k.image));
      SwitchForRollback(s, k);
      RepliedIsOver(s.(phase := Free(500)), k);
      RepliedIsOver(s.(phase := Free(422)), k);
      if !k.valid {
        return 500;
      }
      if r.sha !in commits {
        return 422;
      }
      var created := CreateRollbackBranch(r, k.push);
      RepliedIsOver(View(Free(500)), k);
      if !created {
        return 500;
      }
      var patched := PatchTargetRevision(r, Branch(r.app), k.patch);
      RepliedIsOver(View(Free(500)), k);
      if !patched {
        return 500;
      }
      assert Switch(s, k) == View(Patched(r, k.revision, k.image));
      SettleForRollback(View(Patched(r, k.revision, k.image)), k);
      var _ := RecordEntry(r, EntryFor(r, k.revision, k.image), k.record, k.commit);
      status := 200;
    }

    method Restore(req: Request, k: Luck) returns (status: int)
      requires req.kind.Restore?
      modifies this
      ensures View(Free(status)) == Serve(old(View(Free(0))), req, k)
    {
      var reply, r := Admit(req, k);
      if reply != 0 {
        RepliedIsOver(View(Free(reply)), k);
        return reply;
      }
      ghost var s := View(Cleared(r, k.revision, k.image));
      SwitchForRestore(s, k);
      var patched := PatchTargetRevision(r, Main, k.patch);
      RepliedIsOver(View(Free(500)), k);
      if !patched {
        return 500;
      }
      assert Switch(s, k) == View(Patched(r, k.revision, k.image));
      var _ := RecordRestore(r, EntryFor(r, k.revision, k.image), k);
      status := 200;
    }
  }

  lemma {:induction false} RunAppend(s: State, before: seq<Action>, after: seq<Action>)
    ensures Run(s, before + after) == Run(Run(s, before), after)
    decreases |after|
  {
    if after == [] {
      assert before + after == before;
    } else {
      var init, a := after[..|after| - 1], after[|after| - 1];
      RunAppend(s, before, init);
      RunSplit(s, before + init, a);
      assert before + after == before + init + [a];
    }
  }

  lemma RunThree(s: State, a: Action, b: Action, c: Action)
    ensures Run(s, [a, b, c]) == Step(Step(Step(s, a), b), c)
  {
    RunTwo(s, a, b);
    RunSplit(s, [a, b], c);
    assert [a, b] + [c] == [a, b, c];
  }

  lemma RunTwo(s: State, a: Action, b: Action)
    ensures Run(s, [a, b]) == Step(Step(s, a), b)
  {
    RunSplit(s, [], a);
    RunSplit(s, [a], b);
    assert [] + [a] == [a] && [a] + [b] == [a, b];
  }

  /** A whole request is a run of its calls, so everything proved of runs holds of sequences of requests. */
  lemma ServeIsARun(s: State, before: seq<Action>, r: Request, k: Luck)
    ensures Serve(Run(s, before), r, k) == Run(s, before + Script(r, k))
  {
    var u := Run(s, before);
    var first := [Receive(r), GetApp(k.app, k.revision, k.image), ReadTarget(k.read)];
    var second := [Validate(k.valid), PushBranch(k.push), PatchTarget(k.patch)];
    var third := [Record(k.record, k.commit), MoveBranch(k.move)];
    RunThree(u, Receive(r), GetApp(k.app, k.revision, k.image), ReadTarget(k.read));
    RunThree(Intake(u, r, k), Validate(k.valid), PushBranch(k.push), PatchTarget(k.patch));
    RunTwo(Switch(Intake(u, r, k), k), Record(k.record, k.commit), MoveBranch(k.move));
    RunAppend(u, first, second);
    RunAppend(u, first + second, third);
    RunAppend(s, before, first + second + third);
    assert Script(r, k) == first + second + third;
  }

  // ----- the one way alternation breaks -----

  /** Every call succeeds except the target read, whose error is discarded. */
  const BLIND := Luck(true, "", "", false, true, Done, Done, Done, "", Done)

  lemma BlindServe(s: State, r: Request)
    requires s.phase.Free? && WellFormed(r) && r.kind.RollBack? && r == Normalize(r)
    requires r.app in s.target && r.sha in s.commits
    ensures var t := Serve(s, r, BLIND);
            && t.phase.Free? && r.app in t.target && r.sha in t.commits
            && Patches(t, r.app) == Patches(s, r.app) + [RollBack]
  {
    IntakeReply(s, r, BLIND);
    var admitted := Intake(s, r, BLIND);
    SwitchForRollback(admitted, BLIND);
    SettleForRollback(Switch(admitted, BLIND), BLIND);
  }

  /** A failed read is enough: two Rollbacks of one app in a row, each with its own branch push and patch. */
  lemma BlindRollback(app: App, sha: Sha) returns (s: State, actions: seq<Action>)
    requires ValidSha(sha)
    ensures Start(s) && Patches(Run(s, actions), app) == [RollBack, RollBack]
  {
    s := State(map[app := Main], map[Main := sha], {sha}, map[], Free(200), map[], map[], map[]);
    var r := Request(RollBack, app, sha, "reason", "api");
    BlindServe(s, r);
    ServeIsARun(s, [], r, BLIND);
    actions := [] + Script(r, BLIND);
    BlindServe(Run(s, actions), r);
    ServeIsARun(s, actions, r, BLIND);
    actions := actions + Script(r, BLIND);
  }
}
