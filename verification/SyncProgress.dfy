/** When a sync round counts as complete (`internal/sync/startup.go`): the counters that the handlers keep, and what
    `isSyncComplete` makes of them. */
module SyncProgress {
  import EchoRuns
  import EchoLaws

  // ----- Counters ------------------------------------------------------------------------------------

  datatype Module = Note | File | Folder | Config

  datatype Tasks = Tasks(end: bool, needUpload: int, needModify: int, needSyncMtime: int, needDelete: int,
    completed: int) {
    predicate AllDone() { end && completed >= needUpload + needModify + needSyncMtime + needDelete }
  }

  const NO_TASKS: Tasks := Tasks(false, 0, 0, 0, 0, 0)

  datatype Progress = Progress(
    requesting: bool, localRechecks: int, note: Tasks, file: Tasks, folder: Tasks, config: Tasks, configEnabled: bool,
    downloads: set<string>, uploads: set<string>)

  function Initial(configEnabled: bool): Progress {
    Progress(false, 0, NO_TASKS, NO_TASKS, NO_TASKS, NO_TASKS, configEnabled, {}, {})
  }

  predicate IsSyncComplete(p: Progress) {
    && !p.requesting && p.localRechecks == 0
    && p.note.AllDone() && p.file.AllDone() && p.downloads == {} && p.uploads == {} && p.folder.AllDone()
    && (!p.configEnabled || p.config.AllDone())
  }

  // ----- Events --------------------------------------------------------------------------------------

  /** `RoundStart` is the section of `handleSync`; `Requesting` brackets the requests. An end message sets the counts
      of its module in one section and its flag in a later one. `Enters` and `Leaves`: a download session or an
      active upload; `TimedOut` drops them all. */
  datatype Event =
    | RoundStart | Requesting(on: bool)
    | Counts(m: Module, upload: int, change: int, mtime: int, removal: int) | End(m: Module) | Completed(m: Module)
    | RecheckStart | RecheckEnd
    | Enters(download: bool, key: string) | Leaves(download: bool, key: string) | TimedOut

  function TasksOf(p: Progress, m: Module): Tasks {
    match m
    case Note => p.note
    case File => p.file
    case Folder => p.folder
    case Config => p.config
  }

  function WithTasks(p: Progress, m: Module, t: Tasks): Progress {
    match m
    case Note => p.(note := t)
    case File => p.(file := t)
    case Folder => p.(folder := t)
    case Config => p.(config := t)
  }

  function Apply(p: Progress, e: Event): Progress {
    match e
    case RoundStart => p.(note := NO_TASKS, file := NO_TASKS, folder := NO_TASKS, config := NO_TASKS)
    case Requesting(on) => p.(requesting := on)
    case Counts(m, upload, change, mtime, removal) =>
      WithTasks(p, m, TasksOf(p, m).(
        needUpload := upload, needModify := change, needSyncMtime := mtime, needDelete := removal))
    case End(m) => WithTasks(p, m, TasksOf(p, m).(end := true))
    case Completed(m) => WithTasks(p, m, TasksOf(p, m).(completed := TasksOf(p, m).completed + 1))
    case RecheckStart => p.(localRechecks := p.localRechecks + 1)
    case RecheckEnd => p.(localRechecks := p.localRechecks - 1)
    case Enters(download, key) =>
      if download then p.(downloads := p.downloads + {key}) else p.(uploads := p.uploads + {key})
    case Leaves(download, key) =>
      if download then p.(downloads := p.downloads - {key}) else p.(uploads := p.uploads - {key})
    case TimedOut => p.(downloads := {}, uploads := {})
  }

  function After(configEnabled: bool, es: seq<Event>): Progress {
    if es == [] then Initial(configEnabled)
    else Apply(After(configEnabled, es[..|es| - 1]), es[|es| - 1])
  }

  // ----- What has happened, told from the events -----------------------------------------------------

  function Count(es: seq<Event>, e: Event): nat {
    if es == [] then 0 else Count(es[..|es| - 1], e) + (if es[|es| - 1] == e then 1 else 0)
  }

  /** The events since the last round started. */
  function ThisRound(es: seq<Event>): seq<Event> {
    if es == [] || es[|es| - 1].RoundStart? then [] else ThisRound(es[..|es| - 1]) + [es[|es| - 1]]
  }

  /** The number of items that the last end message of the module announced. */
  function Announced(es: seq<Event>, m: Module): int {
    if es == [] then 0
    else
      var last := es[|es| - 1];
      if last.Counts? && last.m == m then last.upload + last.change + last.mtime + last.removal
      else Announced(es[..|es| - 1], m)
  }

  /** The module has ended in this round, and has completed as many items as it announced. */
  predicate ModuleDone(round: seq<Event>, m: Module) {
    End(m) in round && Count(round, Completed(m)) >= Announced(round, m)
  }

  /** A transfer has entered, and has not left since. */
  ghost predicate Open(es: seq<Event>, download: bool, key: string) {
    exists i :: 0 <= i < |es| && es[i] == Enters(download, key)
      && forall j | i < j < |es| :: es[j] != Leaves(download, key) && es[j] != TimedOut
  }

  ghost predicate StillRequesting(es: seq<Event>) {
    exists i :: 0 <= i < |es| && es[i] == Requesting(true) && forall j | i < j < |es| :: es[j] != Requesting(false)
  }

  // ----- The counters tell the truth -----------------------------------------------------------------

  lemma RoundSnoc(round: seq<Event>, e: Event, m: Module)
    ensures Count(round + [e], Completed(m)) == Count(round, Completed(m)) + (if e == Completed(m) then 1 else 0)
    ensures End(m) in round + [e] <==> End(m) in round || e == End(m)
    ensures Announced(round + [e], m) ==
            if e.Counts? && e.m == m then e.upload + e.change + e.mtime + e.removal else Announced(round, m)
  {
    assert (round + [e])[..|round|] == round;
  }

  /** The counters of a module agree with the events of the round. */
  ghost predicate Tells(t: Tasks, round: seq<Event>, m: Module) {
    && (t.end <==> End(m) in round) && t.completed == Count(round, Completed(m))
    && t.needUpload + t.needModify + t.needSyncMtime + t.needDelete == Announced(round, m)
  }

  lemma StepTells(p: Progress, round: seq<Event>, e: Event, m: Module)
    requires Tells(TasksOf(p, m), round, m) && !e.RoundStart?
    ensures Tells(TasksOf(Apply(p, e), m), round + [e], m)
  {
    RoundSnoc(round, e, m);
    hide Count, Announced;
  }

  lemma {:induction false} TasksTell(configEnabled: bool, es: seq<Event>, m: Module)
    ensures Tells(TasksOf(After(configEnabled, es), m), ThisRound(es), m)
  {
    if es != [] && !es[|es| - 1].RoundStart? {
      var n := |es| - 1;
      TasksTell(configEnabled, es[..n], m);
      hide Tells, Apply;
      StepTells(After(configEnabled, es[..n]), ThisRound(es[..n]), es[n], m);
    }
  }

  lemma {:induction false} OpenSnoc(es: seq<Event>, download: bool, key: string)
    requires es != []
    ensures var n := |es| - 1; Open(es, download, key) <==>
      || es[n] == Enters(download, key)
      || (Open(es[..n], download, key) && es[n] != Leaves(download, key) && es[n] != TimedOut)
  {
    var n := |es| - 1;
    if Open(es[..n], download, key) && es[n] != Leaves(download, key) && es[n] != TimedOut {
      var i :| 0 <= i < n && es[..n][i] == Enters(download, key)
        && forall j | i < j < n :: es[..n][j] != Leaves(download, key) && es[..n][j] != TimedOut;
      assert forall j | i < j < n :: es[j] == es[..n][j];
      assert es[i] == Enters(download, key);
    }
    if Open(es, download, key) && es[n] != Enters(download, key) {
      var i :| 0 <= i < |es| && es[i] == Enters(download, key)
        && forall j | i < j < |es| :: es[j] != Leaves(download, key) && es[j] != TimedOut;
      assert es[..n][i] == Enters(download, key);
      assert forall j | i < j < n :: es[j] == es[..n][j];
    }
  }

  lemma {:induction false} TransfersTell(configEnabled: bool, es: seq<Event>, key: string)
    ensures key in After(configEnabled, es).downloads <==> Open(es, true, key)
    ensures key in After(configEnabled, es).uploads <==> Open(es, false, key)
  {
    hide Open;
    if es != [] {
      TransfersTell(configEnabled, es[..|es| - 1], key);
      OpenSnoc(es, true, key);
      OpenSnoc(es, false, key);
    } else {
      NothingOpen(key);
    }
  }

  lemma NothingOpen(key: string)
    ensures !Open([], true, key) && !Open([], false, key)
  {
  }

  lemma {:induction false} RequestSnoc(es: seq<Event>)
    requires es != []
    ensures var n := |es| - 1;
      StillRequesting(es) <==> es[n] == Requesting(true) || (StillRequesting(es[..n]) && es[n] != Requesting(false))
  {
    var n := |es| - 1;
    if StillRequesting(es[..n]) && es[n] != Requesting(false) {
      var i :| 0 <= i < n && es[..n][i] == Requesting(true) && forall j | i < j < n :: es[..n][j] != Requesting(false);
      assert forall j | i < j < n :: es[j] == es[..n][j];
      assert es[i] == Requesting(true);
    }
    if StillRequesting(es) && es[n] != Requesting(true) {
      var i :| 0 <= i < |es| && es[i] == Requesting(true) && forall j | i < j < |es| :: es[j] != Requesting(false);
      assert es[..n][i] == Requesting(true) && forall j | i < j < n :: es[j] == es[..n][j];
    }
  }

  lemma {:induction false} RequestsTell(configEnabled: bool, es: seq<Event>)
    ensures After(configEnabled, es).requesting <==> StillRequesting(es)
  {
    if es != [] {
      RequestsTell(configEnabled, es[..|es| - 1]);
      RequestSnoc(es);
      hide StillRequesting;
    }
  }

  lemma {:induction false} RechecksTell(configEnabled: bool, es: seq<Event>)
    ensures After(configEnabled, es).localRechecks == Count(es, RecheckStart) - Count(es, RecheckEnd)
    ensures After(configEnabled, es).configEnabled == configEnabled
  {
    if es != [] {
      RechecksTell(configEnabled, es[..|es| - 1]);
    }
  }

  /** A round is complete exactly when no requests are going out, every recheck that was started has returned, every
      transfer that was begun has ended, and each module, the settings only if they are synchronised, has ended in
      this round with at least as many items completed in it as announced. */
  lemma {:induction false} CompleteExactly(configEnabled: bool, es: seq<Event>)
    ensures IsSyncComplete(After(configEnabled, es)) <==>
      && !StillRequesting(es) && Count(es, RecheckStart) == Count(es, RecheckEnd)
      && (forall download, key :: !Open(es, download, key))
      && forall m | m != Config || configEnabled :: ModuleDone(ThisRound(es), m)
  {
    RequestsTell(configEnabled, es);
    RechecksTell(configEnabled, es);
    TasksTell(configEnabled, es, Note);
    TasksTell(configEnabled, es, File);
    TasksTell(configEnabled, es, Folder);
    TasksTell(configEnabled, es, Config);
    TransfersDone(configEnabled, es);
    hide After, ThisRound, Open, StillRequesting, Count, Announced;
    var p, round := After(configEnabled, es), ThisRound(es);
    assert forall m :: TasksOf(p, m).AllDone() <==> ModuleDone(round, m) by {
      ModulesDone(p, round);
    }
    assert p.note == TasksOf(p, Note) && p.file == TasksOf(p, File);
    assert p.folder == TasksOf(p, Folder) && p.config == TasksOf(p, Config);
  }

  lemma ModulesDone(p: Progress, round: seq<Event>)
    requires Tells(p.note, round, Note) && Tells(p.file, round, File)
    requires Tells(p.folder, round, Folder) && Tells(p.config, round, Config)
    ensures forall m :: TasksOf(p, m).AllDone() <==> ModuleDone(round, m)
  {
    forall m ensures TasksOf(p, m).AllDone() <==> ModuleDone(round, m) {
      assert Tells(TasksOf(p, m), round, m);
    }
  }

  lemma {:induction false} TransfersDone(configEnabled: bool, es: seq<Event>)
    ensures var p := After(configEnabled, es);
      p.downloads == {} && p.uploads == {} <==> forall download, key :: !Open(es, download, key)
  {
    hide After, Open;
    var p := After(configEnabled, es);
    forall key ensures (key in p.downloads <==> Open(es, true, key)) && (key in p.uploads <==> Open(es, false, key)) {
      TransfersTell(configEnabled, es, key);
    }
    if p.downloads == {} && p.uploads == {} {
      forall download, key ensures !Open(es, download, key) {
        assert key !in p.downloads && key !in p.uploads;
      }
    } else if p.downloads != {} {
      var key :| key in p.downloads;
      assert Open(es, true, key);
    } else {
      var key :| key in p.uploads;
      assert Open(es, false, key);
    }
  }

  /** A round is never reported complete while a deferred callback of any path is still to be rechecked; the
      service's counter adds up the rechecks of this path and those of the `others`. */
  lemma {:induction false} RechecksHoldRound(h: seq<int> -> int, ls: seq<EchoRuns.Label>, p: Progress, others: nat,
    i: nat)
    requires EchoRuns.IsRun(h, ls) && p.localRechecks == EchoRuns.After(h, ls).localRechecks + others
    requires var threads := EchoRuns.After(h, ls).threads;
      i < |threads| && threads[i].recheck && !threads[i].phase.Over?
    ensures !IsSyncComplete(p)
  {
    EchoLaws.RecheckCounter(h, ls);
  }
}
