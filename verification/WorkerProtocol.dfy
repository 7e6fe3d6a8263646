/** The pause/resume handshake between the master thread and the workers, as a
    state machine: every read or write of a shared word is one step, steps of
    the threads interleave arbitrarily, memory is sequentially consistent, and
    there is one master because RPCs are serialised. */
module WorkerProtocol {

  datatype Status = PAUSING | PAUSED | RUNNING | FINISHED

  // Where a worker thread stands.
  datatype Pc =
    | NoThread               // not launched, or its slot was given up
    | Starting               // Worker::Run, before it sets its status
    | Publishing             // status set, workers[wid] not yet
    | AtCheck                // ScheduleLoop, about to test is_pause_requested
    | InRound                // inside ScheduleOnce
    | Blocking               // BlockWorker, before it sets WORKER_PAUSED
    | Reading                // BlockWorker, in read() on the eventfd
    | Deciding(signal: nat)  // BlockWorker, read() returned signal
    | Quitting               // left ScheduleLoop
    | CheckFailed            // CHECK(0) in BlockWorker

  datatype Worker = Worker(pc: Pc, status: Status, published: bool, eventfd: nat)

  const UNBLOCK: nat := 1
  const QUIT: nat := 2

  // What the master does once a pause or a resume has completed.
  datatype Cont = Return | Destroying | Scanning(acc: seq<nat>) | Resuming(rest: seq<nat>)

  datatype Master =
    | Idle
    | PauseTest(w: nat, k: Cont) | PauseSet(w: nat, k: Cont) | PauseSpin(w: nat, k: Cont)
    | ResumeTest(w: nat, k: Cont) | ResumeWrite(w: nat, k: Cont) | ResumeSpin(w: nat, k: Cont)
    | QuitTest(w: nat) | QuitWrite(w: nat) | QuitSpin(w: nat) | Unpublish(w: nat)
    | LaunchSpin(w: nat)
    | PauserScan(w: nat, acc: seq<nat>)   // WorkerPauser()
    | PauserResume(rest: seq<nat>)        // ~WorkerPauser(), after attach_orphans
    | AttachFailed                        // CHECK(!is_any_worker_running()) failed

  // pausers holds workers_paused_ of the WorkerPausers alive, outermost first.
  datatype State = State(master: Master, ws: seq<Worker>, pausers: seq<seq<nat>>)

  ghost predicate Init(s: State) {
    && s.master == Idle && s.pausers == []
    && (forall w :: 0 <= w < |s.ws| ==> s.ws[w] == Worker(NoThread, PAUSING, false, 0))
  }

  // is_worker_running
  predicate Running(x: Worker) {
    x.published && x.status == RUNNING
  }

  // ---- worker steps --------------------------------------------------------

  ghost predicate WorkerMoves(x: Worker, y: Worker) {
    match x.pc
    case Starting => y == x.(pc := Publishing, status := PAUSING)
    case Publishing => y == x.(pc := AtCheck, published := true)
    case AtCheck => y == x.(pc := if x.status == PAUSING then Blocking else InRound)
    case InRound => y == x || y == x.(pc := AtCheck)
    case Blocking => y == x.(pc := Reading, status := PAUSED)
    case Reading => x.eventfd > 0 && y == x.(pc := Deciding(x.eventfd), eventfd := 0)
    case Deciding(signal) =>
      if signal == UNBLOCK then y == x.(pc := InRound, status := RUNNING)
      else if signal == QUIT then y == x.(pc := Quitting, status := FINISHED)
      else y == x.(pc := CheckFailed)
    case _ => false
  }

  ghost predicate WorkerStep(s: State, t: State, w: nat) {
    && w < |s.ws| == |t.ws| && t.master == s.master && t.pausers == s.pausers
    && WorkerMoves(s.ws[w], t.ws[w]) && t.ws == s.ws[w := t.ws[w]]
  }

  // ---- master steps --------------------------------------------------------

  // The master goes on after its pause or resume of w.
  function After(s: State, w: nat, k: Cont): Master {
    match k
    case Return => Idle
    case Destroying => QuitTest(w)
    case Scanning(acc) => PauserScan(w + 1, acc)
    case Resuming(rest) => PauserResume(rest)
  }

  ghost predicate Goes(s: State, t: State, m: Master) {
    t == s.(master := m)
  }

  ghost predicate MasterStep(s: State, t: State) {
    match s.master
    case Idle => Begins(s, t)
    case PauseTest(w, k) =>
      w < |s.ws| && Goes(s, t, if Running(s.ws[w]) then PauseSet(w, k) else After(s, w, k))
    case PauseSet(w, k) =>
      w < |s.ws| && t == s.(master := PauseSpin(w, k), ws := s.ws[w := s.ws[w].(status := PAUSING)])
    case PauseSpin(w, k) =>
      w < |s.ws| && Goes(s, t, if s.ws[w].status == PAUSING then s.master else After(s, w, k))
    case ResumeTest(w, k) =>
      w < |s.ws| && Goes(s, t, if s.ws[w].published && s.ws[w].status == PAUSED then ResumeWrite(w, k) else After(s, w, k))
    case ResumeWrite(w, k) =>
      w < |s.ws| && t == s.(master := ResumeSpin(w, k), ws := s.ws[w := s.ws[w].(eventfd := s.ws[w].eventfd + UNBLOCK)])
    case ResumeSpin(w, k) =>
      w < |s.ws| && Goes(s, t, if s.ws[w].status == PAUSED then s.master else After(s, w, k))
    case QuitTest(w) =>
      w < |s.ws| && Goes(s, t, if s.ws[w].published && s.ws[w].status == PAUSED then QuitWrite(w) else Idle)
    case QuitWrite(w) =>
      w < |s.ws| && t == s.(master := QuitSpin(w), ws := s.ws[w := s.ws[w].(eventfd := s.ws[w].eventfd + QUIT)])
    case QuitSpin(w) =>
      w < |s.ws| && Goes(s, t, if s.ws[w].status == PAUSED then s.master else Unpublish(w))
    case Unpublish(w) =>
      w < |s.ws| && t == s.(master := Idle, ws := s.ws[w := Worker(NoThread, FINISHED, false, 0)])
    case LaunchSpin(w) =>
      w < |s.ws| && Goes(s, t, if !s.ws[w].published || s.ws[w].status != PAUSED then s.master else Idle)
    case PauserScan(w, acc) =>
      if w >= |s.ws| then t == s.(master := Idle, pausers := s.pausers + [acc])
      else Goes(s, t, if Running(s.ws[w]) then PauseTest(w, Scanning(acc + [w])) else PauserScan(w + 1, acc))
    case PauserResume(rest) =>
      Goes(s, t, if rest == [] then Idle else ResumeTest(rest[0], Resuming(rest[1..])))
    case AttachFailed => false
  }

  // What an RPC may start: an explicit resume only outside any WorkerPauser,
  // a launch only into a free slot.
  ghost predicate Begins(s: State, t: State) {
    || (exists w :: 0 <= w < |s.ws| && Goes(s, t, PauseTest(w, Return)))
    || (exists w :: 0 <= w < |s.ws| && Goes(s, t, PauseTest(w, Destroying)))
    || (exists w :: 0 <= w < |s.ws| && s.pausers == [] && Goes(s, t, ResumeTest(w, Return)))
    || (exists w :: 0 <= w < |s.ws| && Launches(s, t, w))
    || Goes(s, t, PauserScan(0, []))
    || EndsPauser(s, t)
  }

  ghost predicate Launches(s: State, t: State, w: nat) {
    && w < |s.ws| && !s.ws[w].published
    && t == s.(master := LaunchSpin(w), ws := s.ws[w := Worker(Starting, PAUSING, false, 0)])
  }

  // ~WorkerPauser() begins: attach_orphans checks that nothing runs.
  ghost predicate EndsPauser(s: State, t: State) {
    && s.pausers != []
    && var n := |s.pausers| - 1;
       if exists w :: 0 <= w < |s.ws| && Running(s.ws[w])
       then Goes(s, t, AttachFailed)
       else t == s.(master := PauserResume(s.pausers[n]), pausers := s.pausers[..n])
  }

  ghost predicate Next(s: State, t: State) {
    MasterStep(s, t) || exists w :: 0 <= w < |s.ws| && WorkerStep(s, t, w)
  }

  // ---- the invariant -------------------------------------------------------

  // The master is in the middle of pausing or launching w.
  predicate Awaits(m: Master, w: nat) {
    (m.PauseSpin? && m.w == w) || (m.LaunchSpin? && m.w == w)
  }

  // Slot w agrees with what the master is doing.
  ghost predicate SlotOk(m: Master, w: nat, x: Worker) {
    match x.pc
    case NoThread => !x.published && !(m.LaunchSpin? && m.w == w) && x.eventfd == 0
    case Starting => m == LaunchSpin(w) && !x.published && x.eventfd == 0
    case Publishing => m == LaunchSpin(w) && !x.published && x.eventfd == 0 && x.status == PAUSING
    case AtCheck => x.published && x.eventfd == 0 && (x.status == RUNNING || (x.status == PAUSING && Awaits(m, w)))
    case InRound => x.published && x.eventfd == 0 && (x.status == RUNNING || (x.status == PAUSING && Awaits(m, w)))
    case Blocking => x.published && x.eventfd == 0 && x.status == PAUSING && Awaits(m, w)
    case Reading =>
      && x.published && x.status == PAUSED
      && (x.eventfd == 0 || (x.eventfd == UNBLOCK && m.ResumeSpin? && m.w == w) || (x.eventfd == QUIT && m == QuitSpin(w)))
      && (x.eventfd == 0 ==> !(m.ResumeSpin? && m.w == w) && m != QuitSpin(w))
    case Deciding(signal) =>
      && x.published && x.status == PAUSED && x.eventfd == 0
      && ((signal == UNBLOCK && m.ResumeSpin? && m.w == w) || (signal == QUIT && m == QuitSpin(w)))
    case Quitting => x.published && x.status == FINISHED && (m == QuitSpin(w) || m == Unpublish(w))
    case CheckFailed => false
  }

  // Parked: in read() with nothing to read.
  predicate Parked(x: Worker) {
    x.published && x.pc == Reading && x.status == PAUSED && x.eventfd == 0
  }

  ghost predicate ListOk(s: State, list: seq<nat>) {
    forall i :: 0 <= i < |list| ==> list[i] < |s.ws|
  }

  ghost predicate NoneRunningBelow(s: State, w: nat) {
    forall v :: 0 <= v < w && v < |s.ws| ==> !Running(s.ws[v])
  }

  // A constructor has paused everything below w.
  ghost predicate PauseContOk(s: State, w: nat, k: Cont) {
    match k
    case Return => true
    case Destroying => true
    case Scanning(acc) => ListOk(s, acc) && s.pausers == [] && NoneRunningBelow(s, w)
    case Resuming(_) => false
  }

  ghost predicate ResumeContOk(s: State, k: Cont) {
    match k
    case Return => s.pausers == []
    case Resuming(rest) => s.pausers == [] && ListOk(s, rest)
    case _ => false
  }

  // What the master has already learnt about the worker it handles.
  ghost predicate MasterOk(s: State) {
    match s.master
    case Idle => true
    case PauseTest(w, k) => w < |s.ws| && PauseContOk(s, w, k)
    case PauseSet(w, k) => w < |s.ws| && PauseContOk(s, w, k) && Running(s.ws[w])
    case PauseSpin(w, k) =>
      w < |s.ws| && PauseContOk(s, w, k) && s.ws[w].published && (s.ws[w].status == PAUSING || Parked(s.ws[w]))
    case ResumeTest(w, k) => w < |s.ws| && ResumeContOk(s, k)
    case ResumeWrite(w, k) => w < |s.ws| && ResumeContOk(s, k) && Parked(s.ws[w])
    case ResumeSpin(w, k) =>
      w < |s.ws| && ResumeContOk(s, k) && s.ws[w].published && (s.ws[w].status == PAUSED || s.ws[w].status == RUNNING)
    case QuitTest(w) => w < |s.ws|
    case QuitWrite(w) => w < |s.ws| && Parked(s.ws[w])
    case QuitSpin(w) => w < |s.ws| && s.ws[w].published && (s.ws[w].status == PAUSED || s.ws[w].status == FINISHED)
    case Unpublish(w) => w < |s.ws| && s.ws[w].pc == Quitting
    case LaunchSpin(w) => w < |s.ws| && (s.ws[w].status == PAUSING || Parked(s.ws[w]))
    case PauserScan(w, acc) => ListOk(s, acc) && (s.pausers != [] ==> acc == []) && NoneRunningBelow(s, w)
    case PauserResume(rest) => ListOk(s, rest) && (s.pausers != [] ==> rest == [])
    case AttachFailed => false
  }

  // Inside a WorkerPauser nobody runs, and only the outermost has a list.
  ghost predicate PausersOk(s: State) {
    && (s.pausers != [] ==> NoneRunningBelow(s, |s.ws|))
    && (forall i :: 0 <= i < |s.pausers| ==> ListOk(s, s.pausers[i]))
    && (forall i :: 0 < i < |s.pausers| ==> s.pausers[i] == [])
  }

  ghost predicate Inv(s: State) {
    && (forall w :: 0 <= w < |s.ws| ==> SlotOk(s.master, w, s.ws[w]))
    && MasterOk(s) && PausersOk(s)
  }

  lemma InitInv(s: State)
    requires Init(s)
    ensures Inv(s)
  {
  }

  lemma WorkerKeepsInv(s: State, t: State, w: nat)
    requires Inv(s) && WorkerStep(s, t, w)
    ensures Inv(t)
  {
    assert SlotOk(s.master, w, s.ws[w]);
  }

  lemma PauseTestKeepsInv(s: State, t: State)
    requires Inv(s) && MasterStep(s, t) && (s.master.PauseTest? || s.master.PauseSpin?)
    ensures Inv(t)
  {
  }

  lemma PauseSetKeepsInv(s: State, t: State)
    requires Inv(s) && MasterStep(s, t) && (s.master.PauseSet?)
    ensures Inv(t)
  {
  }

  lemma ResumeKeepsInv(s: State, t: State)
    requires Inv(s) && MasterStep(s, t) && (s.master.ResumeTest? || s.master.ResumeSpin?)
    ensures Inv(t)
  {
  }

  lemma ResumeWriteKeepsInv(s: State, t: State)
    requires Inv(s) && MasterStep(s, t) && (s.master.ResumeWrite?)
    ensures Inv(t)
  {
  }

  lemma QuitKeepsInv(s: State, t: State)
    requires Inv(s) && MasterStep(s, t) && (s.master.QuitTest? || s.master.QuitSpin? || s.master.LaunchSpin?)
    ensures Inv(t)
  {
  }

  lemma QuitWriteKeepsInv(s: State, t: State)
    requires Inv(s) && MasterStep(s, t) && (s.master.QuitWrite? || s.master.Unpublish?)
    ensures Inv(t)
  {
  }

  lemma ScanKeepsInv(s: State, t: State)
    requires Inv(s) && MasterStep(s, t) && (s.master.PauserScan? || s.master.PauserResume?)
    ensures Inv(t)
  {
  }

  lemma BeginKeepsInv(s: State, t: State)
    requires Inv(s) && s.master == Idle && Begins(s, t)
    ensures Inv(t)
  {
    if EndsPauser(s, t) {
      assert forall w :: 0 <= w < |s.ws| ==> SlotOk(s.master, w, s.ws[w]);
    } else if w :| 0 <= w < |s.ws| && Launches(s, t, w) {
    }
  }

  lemma MasterKeepsInv(s: State, t: State)
    requires Inv(s) && MasterStep(s, t)
    ensures Inv(t)
  {
    hide Inv, MasterStep;
    match s.master {
      case Idle => MasterIdle(s, t); BeginKeepsInv(s, t);
      case PauseTest(_, _) => PauseTestKeepsInv(s, t);
      case PauseSet(_, _) => PauseSetKeepsInv(s, t);
      case PauseSpin(_, _) => PauseTestKeepsInv(s, t);
      case ResumeTest(_, _) => ResumeKeepsInv(s, t);
      case ResumeWrite(_, _) => ResumeWriteKeepsInv(s, t);
      case ResumeSpin(_, _) => ResumeKeepsInv(s, t);
      case QuitTest(_) => QuitKeepsInv(s, t);
      case QuitWrite(_) => QuitWriteKeepsInv(s, t);
      case QuitSpin(_) => QuitKeepsInv(s, t);
      case Unpublish(_) => QuitWriteKeepsInv(s, t);
      case LaunchSpin(_) => QuitKeepsInv(s, t);
      case PauserScan(_, _) => ScanKeepsInv(s, t);
      case PauserResume(_) => ScanKeepsInv(s, t);
      case AttachFailed => MasterNeverFails(s); assert false;
    }
  }

  lemma MasterIdle(s: State, t: State)
    requires MasterStep(s, t) && s.master == Idle
    ensures Begins(s, t)
  {
  }

  lemma MasterNeverFails(s: State)
    requires Inv(s)
    ensures s.master != AttachFailed
  {
  }

  lemma NextKeepsInv(s: State, t: State)
    requires Inv(s) && Next(s, t)
    ensures Inv(t)
  {
    if MasterStep(s, t) {
      MasterKeepsInv(s, t);
    } else {
      var w :| 0 <= w < |s.ws| && WorkerStep(s, t, w);
      WorkerKeepsInv(s, t, w);
    }
  }

  // ---- what holds in every run ---------------------------------------------

  ghost predicate StepAt(run: seq<State>, i: nat)
    requires i + 1 < |run|
  {
    Next(run[i], run[i + 1])
  }

  ghost predicate IsRun(run: seq<State>) {
    run != [] && Init(run[0]) && forall i :: 0 <= i < |run| - 1 ==> StepAt(run, i)
  }

  lemma {:induction false} InvAlong(run: seq<State>, n: nat)
    requires IsRun(run) && n < |run|
    ensures Inv(run[n])
  {
    if n == 0 {
      InitInv(run[0]);
    } else {
      InvAlong(run, n - 1);
      assert StepAt(run, n - 1);
      NextKeepsInv(run[n - 1], run[n]);
    }
  }

  // Neither CHECK can fail: a worker reads only 1 or 2 from its eventfd, and no
  // worker runs when a WorkerPauser ends.
  lemma NoCheckFails(run: seq<State>, n: nat)
    requires IsRun(run) && n < |run|
    ensures run[n].master != AttachFailed
    ensures forall w :: 0 <= w < |run[n].ws| ==>
              && run[n].ws[w].pc != CheckFailed
              && (run[n].ws[w].pc.Deciding? ==> run[n].ws[w].pc.signal == UNBLOCK || run[n].ws[w].pc.signal == QUIT)
  {
    InvAlong(run, n);
    forall w | 0 <= w < |run[n].ws| ensures SlotOk(run[n].master, w, run[n].ws[w]) {}
  }

  // When pause_worker(w) or launch_worker(w) stops spinning, worker w is parked;
  // when resume_worker(w) does it runs, when destroy_worker(w) does it quits;
  // when the master is idle, each worker runs or is parked.
  lemma HandshakesComplete(run: seq<State>, n: nat)
    requires IsRun(run) && n + 1 < |run|
    ensures var s, t := run[n], run[n + 1];
      && (s.master.PauseSpin? && t.master != s.master ==> s.master.w < |t.ws| && Parked(t.ws[s.master.w]))
      && (s.master.LaunchSpin? && t.master != s.master ==> s.master.w < |t.ws| && Parked(t.ws[s.master.w]))
      && (s.master.ResumeSpin? && t.master != s.master ==> s.master.w < |t.ws| && Running(t.ws[s.master.w]))
      && (s.master.QuitSpin? && t.master != s.master ==> s.master.w < |t.ws| && t.ws[s.master.w].pc == Quitting)
      && (s.master == Idle ==> forall w :: 0 <= w < |s.ws| && s.ws[w].published ==>
            Parked(s.ws[w]) || s.ws[w].status == RUNNING)
  {
    InvAlong(run, n);
    var s, t := run[n], run[n + 1];
    assert StepAt(run, n);
    forall w | 0 <= w < |s.ws| ensures SlotOk(s.master, w, s.ws[w]) {}
    if s.master.PauseSpin? || s.master.LaunchSpin? || s.master.ResumeSpin? || s.master.QuitSpin? {
      assert SlotOk(s.master, s.master.w, s.ws[s.master.w]);
    }
  }

  // The master is about to signal worker w.
  predicate Signals(m: Master, w: nat) {
    (m.ResumeWrite? && m.w == w) || (m.QuitWrite? && m.w == w)
  }

  lemma ParkedStep(s: State, t: State, w: nat)
    requires Inv(s) && Next(s, t) && w < |s.ws| && Parked(s.ws[w]) && !Signals(s.master, w)
    ensures w < |t.ws| && Parked(t.ws[w])
  {
    if v :| 0 <= v < |s.ws| && WorkerStep(s, t, v) {
    } else {
      assert SlotOk(s.master, w, s.ws[w]);
    }
  }

  // A parked worker stays outside any scheduling round until it is signalled,
  // however the threads interleave.
  lemma {:induction false} ParkedUntilSignalled(run: seq<State>, i: nat, j: nat, w: nat)
    requires IsRun(run) && i <= j < |run| && w < |run[i].ws| && Parked(run[i].ws[w])
    requires forall n :: i <= n < j ==> !Signals(run[n].master, w)
    ensures w < |run[j].ws| && Parked(run[j].ws[w])
    decreases j - i
  {
    if i < j {
      ParkedUntilSignalled(run, i, j - 1, w);
      InvAlong(run, j - 1);
      assert StepAt(run, j - 1);
      ParkedStep(run[j - 1], run[j], w);
    }
  }

  // A pause request is never overwritten: it stays until the worker obeys it.
  lemma PauseRequestObeyed(run: seq<State>, n: nat, w: nat)
    requires IsRun(run) && n + 1 < |run| && w < |run[n].ws| && run[n].ws[w].published && run[n].ws[w].status == PAUSING
    ensures w < |run[n + 1].ws|
    ensures run[n + 1].ws[w].status == PAUSING || Parked(run[n + 1].ws[w])
  {
    InvAlong(run, n);
    assert StepAt(run, n);
    var s, t := run[n], run[n + 1];
    assert SlotOk(s.master, w, s.ws[w]);
    if v :| 0 <= v < |s.ws| && WorkerStep(s, t, v) {
    }
  }

  // While a WorkerPauser is alive nobody runs and the master signals nobody to
  // run; when nested ones end they resume nobody. So between RPC steps every
  // worker is parked.
  lemma PausedThroughout(run: seq<State>, n: nat)
    requires IsRun(run) && n < |run| && run[n].pausers != []
    ensures forall w :: 0 <= w < |run[n].ws| ==> !Running(run[n].ws[w])
    ensures !run[n].master.ResumeWrite? && !run[n].master.ResumeSpin?
    ensures run[n].master.PauserResume? ==> run[n].master.rest == []
    ensures run[n].master == Idle ==> forall w :: 0 <= w < |run[n].ws| && run[n].ws[w].published ==> Parked(run[n].ws[w])
  {
    InvAlong(run, n);
    forall w | 0 <= w < |run[n].ws| ensures SlotOk(run[n].master, w, run[n].ws[w]) {}
  }

  // ---- what each RPC achieves ----------------------------------------------

  // The master is idle before step i and again in state j, and not in between.
  ghost predicate Rpc(run: seq<State>, i: nat, j: nat) {
    && i < j < |run| && run[i].master == Idle && run[j].master == Idle
    && forall n :: i < n < j ==> run[n].master != Idle
  }

  // The workers below n that run, in order.
  ghost function RunningBelow(ws: seq<Worker>, n: nat): seq<nat>
    requires n <= |ws|
  {
    if n == 0 then [] else RunningBelow(ws, n - 1) + if Running(ws[n - 1]) then [n - 1] else []
  }

  lemma {:induction false} RunningListed(ws: seq<Worker>, n: nat, w: nat)
    requires n <= |ws|
    ensures w in RunningBelow(ws, n) <==> w < n && Running(ws[w])
  {
    if n > 0 { RunningListed(ws, n - 1, w); }
  }

  // From v on, those run that ran at the start.
  ghost predicate SameFrom(ws: seq<Worker>, now: seq<Worker>, v: nat) {
    |now| == |ws| && forall w :: v <= w < |ws| ==> (Running(now[w]) <==> Running(ws[w]))
  }

  // A constructor under way that started with the workers ws and the lists ps.
  ghost predicate Constructs(ws: seq<Worker>, ps: seq<seq<nat>>, s: State) {
    |s.ws| == |ws| &&
    match s.master
    case PauserScan(v, acc) => v <= |ws| && SameFrom(ws, s.ws, v) && acc == RunningBelow(ws, v) && s.pausers == ps
    case PauseTest(v, Scanning(acc)) => Chosen(ws, s, v, acc) && s.pausers == ps
    case PauseSet(v, Scanning(acc)) => Chosen(ws, s, v, acc) && s.pausers == ps
    case PauseSpin(v, Scanning(acc)) => Chosen(ws, s, v, acc) && s.pausers == ps
    case Idle => s.pausers == ps + [RunningBelow(ws, |ws|)]
    case _ => false
  }

  ghost predicate Chosen(ws: seq<Worker>, s: State, v: nat, acc: seq<nat>) {
    v < |ws| && SameFrom(ws, s.ws, v + 1) && acc == RunningBelow(ws, v + 1)
  }

  // Nobody starts or stops running by itself.
  lemma RunsOn(s: State, t: State, v: nat)
    requires Inv(s) && WorkerStep(s, t, v) && !s.master.ResumeSpin?
    ensures forall w :: 0 <= w < |s.ws| ==> (Running(t.ws[w]) <==> Running(s.ws[w]))
  {
    assert SlotOk(s.master, v, s.ws[v]);
  }

  lemma ConstructsStep(ws: seq<Worker>, ps: seq<seq<nat>>, s: State, t: State)
    requires Inv(s) && Next(s, t) && Constructs(ws, ps, s) && s.master != Idle
    ensures Constructs(ws, ps, t)
  {
    if v :| 0 <= v < |s.ws| && WorkerStep(s, t, v) {
      RunsOn(s, t, v);
    }
  }

  lemma {:induction false} ConstructsAlong(run: seq<State>, i: nat, j: nat)
    requires IsRun(run) && i < j < |run| && run[i].master == Idle && run[i + 1].master.PauserScan?
    requires forall n :: i < n < j ==> run[n].master != Idle
    ensures Constructs(run[i].ws, run[i].pausers, run[j])
    decreases j
  {
    hide Next, Inv, Constructs;
    if j == i + 1 {
      assert StepAt(run, i);
      ConstructorStarts(run[i], run[j]);
    } else {
      ConstructsAlong(run, i, j - 1);
      InvAlong(run, j - 1);
      assert StepAt(run, j - 1);
      ConstructsStep(run[i].ws, run[i].pausers, run[j - 1], run[j]);
    }
  }

  lemma ConstructorStarts(s: State, t: State)
    requires Next(s, t) && s.master == Idle && t.master.PauserScan?
    ensures Constructs(s.ws, s.pausers, t)
  {
  }

  // A WorkerPauser lists exactly the workers that ran when it was built.
  lemma PauserLists(run: seq<State>, i: nat, j: nat)
    requires IsRun(run) && Rpc(run, i, j) && run[i + 1].master.PauserScan?
    ensures run[j].pausers == run[i].pausers + [RunningBelow(run[i].ws, |run[i].ws|)]
  {
    ConstructsAlong(run, i, j);
  }

  // The workers a destructor has still to resume.
  ghost function Pending(m: Master): seq<nat> {
    match m
    case PauserResume(rest) => rest
    case ResumeTest(w, Resuming(rest)) => [w] + rest
    case ResumeWrite(w, Resuming(rest)) => [w] + rest
    case ResumeSpin(w, Resuming(rest)) => [w] + rest
    case _ => []
  }

  ghost predicate Destructing(m: Master) {
    m.PauserResume? || ((m.ResumeTest? || m.ResumeWrite? || m.ResumeSpin?) && m.k.Resuming?)
  }

  // A destructor under way: of the workers in ps each runs, or its turn comes.
  ghost predicate Destructs(ps: set<nat>, lists: seq<seq<nat>>, s: State) {
    && s.pausers == lists && (Destructing(s.master) || s.master == Idle)
    && forall w :: w in ps ==> w < |s.ws| && (Running(s.ws[w]) || InTurn(s, w))
  }

  ghost predicate InTurn(s: State, w: nat)
    requires w < |s.ws|
  {
    && w in Pending(s.master)
    && (Parked(s.ws[w]) || (s.master.ResumeSpin? && s.master.w == w && s.ws[w].published && s.ws[w].status == PAUSED))
  }

  lemma DestructsWorker(ps: set<nat>, lists: seq<seq<nat>>, s: State, t: State, v: nat)
    requires Inv(s) && WorkerStep(s, t, v) && Destructs(ps, lists, s)
    ensures Destructs(ps, lists, t)
  {
    assert SlotOk(s.master, v, s.ws[v]);
  }

  lemma DestructsMaster(ps: set<nat>, lists: seq<seq<nat>>, s: State, t: State)
    requires Inv(s) && MasterStep(s, t) && Destructs(ps, lists, s) && s.master != Idle
    ensures Destructs(ps, lists, t)
  {
    forall w | w in ps ensures w < |t.ws| && (Running(t.ws[w]) || InTurn(t, w)) {
      assert w < |s.ws| && SlotOk(s.master, w, s.ws[w]);
      assert w in Pending(s.master) && s.master.PauserResume? ==> s.master.rest == [s.master.rest[0]] + s.master.rest[1..];
    }
  }

  lemma {:induction false} DestructsAlong(run: seq<State>, i: nat, j: nat, ps: set<nat>)
    requires IsRun(run) && i < j < |run| && run[i].master == Idle && |run[i + 1].pausers| < |run[i].pausers|
    requires forall n :: i < n < j ==> run[n].master != Idle
    requires var list := run[i].pausers[|run[i].pausers| - 1];
      forall w :: w in ps ==> w in list && w < |run[i].ws| && Parked(run[i].ws[w])
    ensures Destructs(ps, run[i].pausers[..|run[i].pausers| - 1], run[j])
    decreases j
  {
    hide Next, Inv, Destructs, MasterStep, WorkerStep;
    if j == i + 1 {
      assert StepAt(run, i);
      InvAlong(run, i);
      DestructorStarts(run[i], run[j], ps);
    } else {
      DestructsAlong(run, i, j - 1, ps);
      InvAlong(run, j - 1);
      assert StepAt(run, j - 1);
      DestructsStep(run[i].pausers[..|run[i].pausers| - 1], run[j - 1], run[j], ps);
    }
  }

  lemma DestructsStep(lists: seq<seq<nat>>, s: State, t: State, ps: set<nat>)
    requires Inv(s) && Next(s, t) && Destructs(ps, lists, s) && s.master != Idle
    ensures Destructs(ps, lists, t)
  {
    hide Inv, Destructs, MasterStep, WorkerStep;
    if MasterStep(s, t) {
      DestructsMaster(ps, lists, s, t);
    } else {
      var v :| 0 <= v < |s.ws| && WorkerStep(s, t, v);
      DestructsWorker(ps, lists, s, t, v);
    }
  }

  lemma DestructorStarts(s: State, t: State, ps: set<nat>)
    requires Inv(s) && Next(s, t) && s.master == Idle && |t.pausers| < |s.pausers|
    requires var list := s.pausers[|s.pausers| - 1];
      forall w :: w in ps ==> w in list && w < |s.ws| && Parked(s.ws[w])
    ensures Destructs(ps, s.pausers[..|s.pausers| - 1], t)
  {
    assert EndsPauser(s, t);
  }

  // When a WorkerPauser ends, every worker on its list that is parked then runs
  // before the master does anything else.
  lemma PauserResumesAll(run: seq<State>, i: nat, j: nat, w: nat)
    requires IsRun(run) && Rpc(run, i, j) && |run[i + 1].pausers| < |run[i].pausers|
    requires w in run[i].pausers[|run[i].pausers| - 1] && w < |run[i].ws| && Parked(run[i].ws[w])
    ensures run[j].pausers == run[i].pausers[..|run[i].pausers| - 1]
    ensures w < |run[j].ws| && Running(run[j].ws[w])
  {
    DestructsAlong(run, i, j, {w});
    assert w in {w};
  }

  // ---- from construction to destruction ----

  lemma StackStep(s: State, t: State)
    requires Next(s, t)
    ensures t.pausers == s.pausers || (exists list :: t.pausers == s.pausers + [list])
            || (s.pausers != [] && t.pausers == s.pausers[..|s.pausers| - 1])
    ensures |t.ws| == |s.ws|
  {
  }

  // A list stays where it is as long as its WorkerPauser is alive.
  lemma {:induction false} StackKept(run: seq<State>, i: nat, j: nat, d: nat)
    requires IsRun(run) && i <= j < |run| && forall n :: i <= n <= j ==> d < |run[n].pausers|
    ensures run[j].pausers[d] == run[i].pausers[d] && |run[j].ws| == |run[i].ws|
    decreases j
  {
    if i < j {
      StackKept(run, i, j - 1, d);
      assert StepAt(run, j - 1);
      StackStep(run[j - 1], run[j]);
    }
  }

  lemma {:induction false} SameWorkers(run: seq<State>, i: nat, j: nat)
    requires IsRun(run) && i <= j < |run|
    ensures |run[j].ws| == |run[i].ws|
    decreases j
  {
    if i < j {
      SameWorkers(run, i, j - 1);
      assert StepAt(run, j - 1);
      StackStep(run[j - 1], run[j]);
    }
  }

  // A WorkerPauser built in states i to j and destroyed in states k to l: every
  // worker that ran before and was not taken down meanwhile runs again.
  lemma PausedAndResumed(run: seq<State>, i: nat, j: nat, k: nat, l: nat, w: nat)
    requires IsRun(run) && Rpc(run, i, j) && run[i + 1].master.PauserScan? && j <= k && Rpc(run, k, l)
    requires |run[k].pausers| == |run[i].pausers| + 1 && |run[k + 1].pausers| < |run[k].pausers|
    requires forall n :: j <= n <= k ==> |run[n].pausers| > |run[i].pausers|
    requires w < |run[i].ws| && Running(run[i].ws[w]) && (w < |run[k].ws| ==> run[k].ws[w].published)
    ensures w < |run[l].ws| && Running(run[l].ws[w])
  {
    hide IsRun, Running;
    PauserLists(run, i, j);
    StackKept(run, j, k, |run[i].pausers|);
    SameWorkers(run, i, k);
    RunningListed(run[i].ws, |run[i].ws|, w);
    PausedThroughout(run, k);
    PauserResumesAll(run, k, l, w);
  }

  // ---- single workers ----

  // pause_worker(w) under way.
  ghost predicate Pausing(w: nat, x: Worker, s: State) {
    && w < |s.ws| && s.ws[w].published == x.published
    && match s.master
       case PauseTest(v, k) => v == w && k == Return
       case PauseSet(v, k) => v == w && k == Return
       case PauseSpin(v, k) => v == w && k == Return
       case Idle => x.published ==> Parked(s.ws[w])
       case _ => false
  }

  ghost predicate Destroys(w: nat, s: State) {
    && w < |s.ws|
    && match s.master
       case PauseTest(v, k) => v == w && k == Destroying
       case PauseSet(v, k) => v == w && k == Destroying
       case PauseSpin(v, k) => v == w && k == Destroying
       case QuitTest(v) => v == w && (s.ws[w].published ==> Parked(s.ws[w]))
       case QuitWrite(v) => v == w
       case QuitSpin(v) => v == w
       case Unpublish(v) => v == w
       case Idle => !s.ws[w].published && s.ws[w].pc == NoThread
       case _ => false
  }

  ghost predicate Resumes(w: nat, x: Worker, s: State) {
    && w < |s.ws| && s.ws[w].published == x.published
    && match s.master
       case ResumeTest(v, k) => v == w && k == Return
       case ResumeWrite(v, k) => v == w && k == Return
       case ResumeSpin(v, k) => v == w && k == Return
       case Idle => x.published ==> Running(s.ws[w])
       case _ => false
  }

  // An RPC on one worker under way, as far as it got.
  ghost predicate Serves(first: Master, x: Worker, s: State)
    requires ServesOne(first)
  {
    if first.LaunchSpin? then first.w < |s.ws| && (s.master == first || (s.master == Idle && Parked(s.ws[first.w])))
    else if first.ResumeTest? then Resumes(first.w, x, s)
    else if first.k == Return then Pausing(first.w, x, s)
    else Destroys(first.w, s)
  }

  lemma ServesWorker(first: Master, x: Worker, s: State, t: State, v: nat)
    requires ServesOne(first)
    requires Inv(s) && WorkerStep(s, t, v) && Serves(first, x, s) && s.master != Idle
    ensures Serves(first, x, t)
  {
    assert SlotOk(s.master, v, s.ws[v]);
  }

  lemma ServesMaster(first: Master, x: Worker, s: State, t: State)
    requires ServesOne(first)
    requires Inv(s) && MasterStep(s, t) && Serves(first, x, s) && s.master != Idle
    ensures Serves(first, x, t)
  {
    forall w | 0 <= w < |s.ws| ensures SlotOk(s.master, w, s.ws[w]) {}
  }

  lemma ServesStep(first: Master, x: Worker, s: State, t: State)
    requires ServesOne(first)
    requires Inv(s) && Next(s, t) && Serves(first, x, s) && s.master != Idle
    ensures Serves(first, x, t)
  {
    hide Inv, Serves, MasterStep, WorkerStep;
    if MasterStep(s, t) {
      ServesMaster(first, x, s, t);
    } else {
      var v :| 0 <= v < |s.ws| && WorkerStep(s, t, v);
      ServesWorker(first, x, s, t, v);
    }
  }

  lemma ServesStarts(s: State, t: State)
    requires Next(s, t) && s.master == Idle && t.master != Idle && ServesOne(t.master) && t.master.w < |s.ws|
    ensures Serves(t.master, s.ws[t.master.w], t)
  {
  }

  predicate ServesOne(m: Master) {
    (m.PauseTest? && (m.k == Return || m.k == Destroying)) || (m.ResumeTest? && m.k == Return) || m.LaunchSpin?
  }

  lemma {:induction false} ServesAlong(run: seq<State>, i: nat, j: nat)
    requires IsRun(run) && i < j < |run| && run[i].master == Idle && ServesOne(run[i + 1].master)
    requires run[i + 1].master.w < |run[i].ws| && forall n :: i < n < j ==> run[n].master != Idle
    ensures Serves(run[i + 1].master, run[i].ws[run[i + 1].master.w], run[j])
    decreases j
  {
    hide Next, Inv, Serves;
    if j == i + 1 {
      assert StepAt(run, i);
      ServesStarts(run[i], run[j]);
    } else {
      ServesAlong(run, i, j - 1);
      InvAlong(run, j - 1);
      assert StepAt(run, j - 1);
      ServesStep(run[i + 1].master, run[i].ws[run[i + 1].master.w], run[j - 1], run[j]);
    }
  }

  // What the RPCs on one worker achieve: a paused one is parked, a resumed one
  // runs, a launched one is parked, and a destroyed one is gone.
  lemma RpcDone(run: seq<State>, i: nat, j: nat)
    requires IsRun(run) && Rpc(run, i, j) && ServesOne(run[i + 1].master) && run[i + 1].master.w < |run[i].ws|
    ensures var m := run[i + 1].master; m.w < |run[j].ws| && var x, y := run[i].ws[m.w], run[j].ws[m.w];
      && (m.PauseTest? && m.k == Return && x.published ==> Parked(y))
      && (m.PauseTest? && m.k == Destroying ==> !y.published && y.pc == NoThread)
      && (m.ResumeTest? && x.published ==> Running(y))
      && (m.LaunchSpin? ==> Parked(y))
  {
    ServesAlong(run, i, j);
  }

  // ---- no RPC gets stuck ----------------------------------------------------

  // How far the master is from being idle again, with n workers.
  ghost function Rank(m: Master, n: nat): nat {
    match m
    case Idle => 0
    case PauseTest(w, k) => AfterRank(w, k, n) + 3
    case PauseSet(w, k) => AfterRank(w, k, n) + 2
    case PauseSpin(w, k) => AfterRank(w, k, n) + 1
    case ResumeTest(w, k) => AfterRank(w, k, n) + 3
    case ResumeWrite(w, k) => AfterRank(w, k, n) + 2
    case ResumeSpin(w, k) => AfterRank(w, k, n) + 1
    case QuitTest(_) => 4
    case QuitWrite(_) => 3
    case QuitSpin(_) => 2
    case Unpublish(_) => 1
    case LaunchSpin(_) => 1
    case PauserScan(w, _) => ScanRank(w, n)
    case PauserResume(rest) => 4 * |rest| + 1
    case AttachFailed => 0
  }

  ghost function ScanRank(w: nat, n: nat): nat {
    if w < n then 4 * (n - w) + 1 else 1
  }

  ghost function AfterRank(w: nat, k: Cont, n: nat): nat {
    match k
    case Return => 0
    case Destroying => 4
    case Scanning(_) => ScanRank(w + 1, n)
    case Resuming(rest) => 4 * |rest| + 1
  }

  predicate Spins(m: Master) {
    m.PauseSpin? || m.ResumeSpin? || m.QuitSpin? || m.LaunchSpin?
  }

  // How far the worker is from what the master spins for.
  ghost function Distance(x: Worker): nat {
    match x.pc
    case Starting => 5
    case Publishing => 4
    case InRound => if x.status == RUNNING then 0 else 3
    case AtCheck => if x.status == RUNNING then 0 else 2
    case Blocking => 1
    case Reading => if x.eventfd > 0 then 2 else 0
    case Deciding(_) => 1
    case _ => 0
  }

  // The master can always move on, and moves closer to being idle unless it spins.
  lemma MasterGoesOn(s: State, t: State)
    requires Inv(s) && s.master != Idle
    ensures exists u :: MasterStep(s, u)
    ensures MasterStep(s, t) ==> Rank(t.master, |s.ws|) < Rank(s.master, |s.ws|) || (Spins(s.master) && t == s)
  {
    MasterMoves(s);
  }

  lemma MasterMoves(s: State)
    requires Inv(s) && s.master != Idle
    ensures exists u :: MasterStep(s, u)
  {
    var u: State;
    match s.master {
      case PauseTest(w, k) => u := s.(master := if Running(s.ws[w]) then PauseSet(w, k) else After(s, w, k));
      case PauseSet(w, k) => u := s.(master := PauseSpin(w, k), ws := s.ws[w := s.ws[w].(status := PAUSING)]);
      case PauseSpin(w, k) => u := s.(master := if s.ws[w].status == PAUSING then s.master else After(s, w, k));
      case ResumeTest(w, k) =>
        u := s.(master := if s.ws[w].published && s.ws[w].status == PAUSED then ResumeWrite(w, k) else After(s, w, k));
      case ResumeWrite(w, k) =>
        u := s.(master := ResumeSpin(w, k), ws := s.ws[w := s.ws[w].(eventfd := s.ws[w].eventfd + UNBLOCK)]);
      case ResumeSpin(w, k) => u := s.(master := if s.ws[w].status == PAUSED then s.master else After(s, w, k));
      case QuitTest(w) => u := s.(master := if s.ws[w].published && s.ws[w].status == PAUSED then QuitWrite(w) else Idle);
      case QuitWrite(w) => u := s.(master := QuitSpin(w), ws := s.ws[w := s.ws[w].(eventfd := s.ws[w].eventfd + QUIT)]);
      case QuitSpin(w) => u := s.(master := if s.ws[w].status == PAUSED then s.master else Unpublish(w));
      case Unpublish(w) => u := s.(master := Idle, ws := s.ws[w := Worker(NoThread, FINISHED, false, 0)]);
      case LaunchSpin(w) => u := s.(master := if !s.ws[w].published || s.ws[w].status != PAUSED then s.master else Idle);
      case PauserScan(w, acc) =>
        if w >= |s.ws| {
          u := s.(master := Idle, pausers := s.pausers + [acc]);
        } else {
          u := s.(master := if Running(s.ws[w]) then PauseTest(w, Scanning(acc + [w])) else PauserScan(w + 1, acc));
        }
      case PauserResume(rest) => u := s.(master := if rest == [] then Idle else ResumeTest(rest[0], Resuming(rest[1..])));
      case _ => MasterNeverFails(s); assert false;
    }
    assert MasterStep(s, u);
  }

  // A spinning master is released once the worker is there; until then the worker
  // has a step that brings it closer, and no step of a worker takes it away.
  lemma SpinIsServed(s: State, t: State)
    requires Inv(s) && Spins(s.master)
    ensures s.master.w < |s.ws|
    ensures var w := s.master.w;
      if Distance(s.ws[w]) == 0 then MasterStep(s, t) ==> t.master != s.master
      else exists u :: WorkerStep(s, u, w) && Distance(u.ws[w]) < Distance(s.ws[w])
    ensures (exists v :: 0 <= v < |s.ws| && WorkerStep(s, t, v)) ==>
              s.master.w < |t.ws| && Distance(t.ws[s.master.w]) <= Distance(s.ws[s.master.w])
  {
    var w := s.master.w;
    assert SlotOk(s.master, w, s.ws[w]);
    var x := s.ws[w];
    if Distance(x) > 0 {
      var y: Worker;
      match x.pc {
        case Starting => y := x.(pc := Publishing, status := PAUSING);
        case Publishing => y := x.(pc := AtCheck, published := true);
        case AtCheck => y := x.(pc := Blocking);
        case InRound => y := x.(pc := AtCheck);
        case Blocking => y := x.(pc := Reading, status := PAUSED);
        case Reading => y := x.(pc := Deciding(x.eventfd), eventfd := 0);
        case Deciding(signal) => y := if signal == UNBLOCK then x.(pc := InRound, status := RUNNING) else x.(pc := Quitting, status := FINISHED);
        case _ =>
      }
      assert WorkerMoves(x, y);
      assert WorkerStep(s, s.(ws := s.ws[w := y]), w);
    }
  }
}
