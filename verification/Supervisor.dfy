/** The process supervisor (`daemon/internal/backend/process.go`).

    `Start`, `Stop`, `Restart`, `supervise`, `probe` and the delayed kills run as concurrent steps;
    each region under the backend's mutex is one step. A runner's state holds the source's fields
    and, beside them, what the source only causes: its OS processes, one for each incarnation, and
    the goroutines and timers still to act. Nothing in the state says there is one process or one
    supervisor: that is what is proved. */
module Supervisor {
  datatype Policy = OnFailure | Always | Never

  datatype Status = Starting | Running | Restarting | Stopped | Failed

  datatype Process = Live | Exited(code: int) | Reaped

  /** Where a `supervise` goroutine is; the code is what its last `Wait` reported. */
  datatype Place = Waiting | Reaping(code: int) | BackingOff(code: int) | Waking(code: int) | Returned

  datatype Goroutine = Goroutine(cmd: nat, at: Place, backoff: nat)

  datatype Runner = Runner(
    policy: Policy, cmd: nat, alive: bool, status: Status, restarts: nat, reachedRunning: bool,
    restartRequested: bool, stopping: bool, supervising: bool, wake: bool,
    processes: seq<Process>, supervisors: seq<Goroutine>, kills: multiset<nat>, killed: seq<nat>, attempts: nat)

  const BAD_CONFIG := 2
  const BACKOFF_CAP_MS := 30_000

  // The regions under the mutex.

  function Fresh(policy: Policy): Runner {
    Runner(policy, 0, false, Stopped, 0, false, false, false, false, false, [], [], multiset{}, [], 0)
  }

  function Spawn(r: Runner, ok: bool): Runner {
    if !ok then r.(attempts := r.attempts + 1)
    else r.(cmd := |r.processes|, processes := r.processes + [Live], alive := true, status := Starting,
            reachedRunning := false, attempts := r.attempts + 1)
  }

  function SuperviseFrom(r: Runner, minBackoff: nat): Runner {
    r.(supervising := true, supervisors := r.supervisors + [Goroutine(r.cmd, Waiting, minBackoff)])
  }

  function Placed(r: Runner, i: nat, at: Place): Runner
    requires i < |r.supervisors|
  {
    r.(supervisors := r.supervisors[i := r.supervisors[i].(at := at)])
  }

  function Respawn(r: Runner, i: nat, ok: bool): Runner
    requires i < |r.supervisors|
  {
    Launched(Spawn(r.(restarts := r.restarts + 1), ok), i, ok)
  }

  function Launched(tried: Runner, i: nat, ok: bool): Runner
    requires i < |tried.supervisors|
  {
    if ok then tried.(supervisors := tried.supervisors[i := Goroutine(tried.cmd, Waiting, tried.supervisors[i].backoff)])
    else Placed(tried.(status := Failed, supervising := false), i, Returned)
  }

  predicate Allowed(policy: Policy, code: int) {
    code != BAD_CONFIG && (policy == Always || (code != 0 && policy == OnFailure))
  }

  /** `supervise` after `Wait` returned `code`; `ok` is whether a spawn, if it comes to one, works. */
  function Reap(r: Runner, i: nat, minBackoff: nat, ok: bool): Runner
    requires i < |r.supervisors| && r.supervisors[i].at.Reaping?
  {
    var code := r.supervisors[i].at.code;
    var dead := r.(alive := false);
    if r.stopping then Placed(dead.(status := Stopped), i, Returned)
    else if r.restartRequested then Respawn(dead.(restartRequested := false), i, ok)
    else Decided(dead, i, code, minBackoff)
  }

  function Decided(r: Runner, i: nat, code: int, minBackoff: nat): Runner
    requires i < |r.supervisors|
  {
    if Allowed(r.policy, code) then
      var backoff := if r.reachedRunning then minBackoff else r.supervisors[i].backoff;
      r.(status := Restarting, supervisors := r.supervisors[i := Goroutine(r.supervisors[i].cmd, BackingOff(code), backoff)])
    else Placed(r.(status := if code != 0 then Failed else Stopped, supervising := false), i, Returned)
  }

  /** The wait ends on the timer or on a wake token; the backoff doubles on the way out. */
  function EndBackoff(r: Runner, i: nat, byToken: bool): Runner
    requires i < |r.supervisors| && r.supervisors[i].at.BackingOff?
  {
    var g := r.supervisors[i];
    var doubled := if g.backoff < BACKOFF_CAP_MS then g.backoff * 2 else g.backoff;
    r.(wake := r.wake && !byToken, supervisors := r.supervisors[i := Goroutine(g.cmd, Waking(g.at.code), doubled)])
  }

  function Wake(r: Runner, i: nat, ok: bool): Runner
    requires i < |r.supervisors|
  {
    if r.stopping then Placed(r.(status := Stopped), i, Returned)
    else Respawn(r.(restartRequested := false), i, ok)
  }

  function MarkRunning(r: Runner, cmd: nat): Runner {
    if r.cmd == cmd && r.alive && r.status == Starting then r.(status := Running, reachedRunning := true) else r
  }

  function BeginStop(r: Runner): Runner {
    r.(stopping := true, wake := true, kills := r.kills + multiset{r.cmd})
  }

  datatype Reply = Done | SpawnFailed | SignalFailed

  function RequestRestart(r: Runner, minBackoff: nat, spawnOk: bool, signalOk: bool): (Runner, Reply) {
    if !r.supervising then
      var tried := Spawn(r, spawnOk);
      if !spawnOk then (tried.(status := Failed), SpawnFailed)
      else (SuperviseFrom(tried.(restarts := tried.restarts + 1), minBackoff), Done)
    else
      var asked := r.(restartRequested := true);
      if r.alive then
        if signalOk then (asked.(kills := r.kills + multiset{r.cmd}), Done) else (asked, SignalFailed)
      else (asked.(wake := true), Done)
  }

  function KillIfStill(r: Runner, cmd: nat): Runner {
    var fired := r.(kills := r.kills - multiset{cmd});
    if r.alive && r.cmd == cmd then fired.(killed := r.killed + [cmd]) else fired
  }

  // Steps of one runner that no caller asked for.

  datatype Step =
    | Exit(cmd: nat, code: int)             // an OS process ends: by itself, or on a signal
    | WaitReturns(i: nat)
    | ReapStep(i: nat, ok: bool)
    | BackoffStep(i: nat, byToken: bool)
    | WakeStep(i: nat, ok: bool)
    | ProbeAnswers(cmd: nat)
    | KillStep(cmd: nat)

  predicate Enabled(r: Runner, s: Step) {
    match s
    case Exit(cmd, _) => cmd < |r.processes| && r.processes[cmd].Live?
    case WaitReturns(i) =>
      && i < |r.supervisors| && r.supervisors[i].at.Waiting?
      && r.supervisors[i].cmd < |r.processes| && r.processes[r.supervisors[i].cmd].Exited?
    case ReapStep(i, _) => i < |r.supervisors| && r.supervisors[i].at.Reaping?
    case BackoffStep(i, byToken) => i < |r.supervisors| && r.supervisors[i].at.BackingOff? && (byToken ==> r.wake)
    case WakeStep(i, _) => i < |r.supervisors| && r.supervisors[i].at.Waking?
    case ProbeAnswers(cmd) => cmd < |r.processes|
    case KillStep(cmd) => cmd in r.kills
  }

  function Take(r: Runner, s: Step, minBackoff: nat): Runner
    requires Enabled(r, s)
  {
    match s
    case Exit(cmd, code) => r.(processes := r.processes[cmd := Exited(code)])
    case WaitReturns(i) =>
      var cmd := r.supervisors[i].cmd;
      Placed(r.(processes := r.processes[cmd := Reaped]), i, Reaping(r.processes[cmd].code))
    case ReapStep(i, ok) => Reap(r, i, minBackoff, ok)
    case BackoffStep(i, byToken) => EndBackoff(r, i, byToken)
    case WakeStep(i, ok) => Wake(r, i, ok)
    case ProbeAnswers(cmd) => MarkRunning(r, cmd)
    case KillStep(cmd) => KillIfStill(r, cmd)
  }

  // The backend: runners by name, and every runner ever started.

  datatype Backend = Backend(registry: map<string, nat>, runners: seq<Runner>)

  datatype Action =
    | Start(name: string, restart: string, spawnOk: bool)
    | Stop(name: string)
    | Restart(name: string, spawnOk: bool, signalOk: bool)
    | Advance(id: nat, step: Step)

  datatype Answer = Ok | Taken | BadPolicy | Unknown | Refused(reply: Reply) | Silent

  function ParsePolicy(restart: string): (Policy, bool) {
    if restart == "" || restart == "on-failure" then (OnFailure, true)
    else if restart == "always" then (Always, true)
    else if restart == "never" then (Never, true)
    else (OnFailure, false)
  }

  predicate CanAct(b: Backend, a: Action) {
    && (forall n :: n in b.registry ==> b.registry[n] < |b.runners|)
    && (a.Advance? ==> a.id < |b.runners| && Enabled(b.runners[a.id], a.step))
  }

  function Act(b: Backend, a: Action, minBackoff: nat): (Backend, Answer)
    requires CanAct(b, a)
  {
    match a
    case Start(name, restart, spawnOk) =>
      var (policy, known) := ParsePolicy(restart);
      if name in b.registry then (b, Taken)
      else if !known then (b, BadPolicy)
      else if !spawnOk then (b, Refused(SpawnFailed))
      else (Backend(b.registry[name := |b.runners|], b.runners + [SuperviseFrom(Spawn(Fresh(policy), true), minBackoff)]), Ok)
    case Stop(name) =>
      if name !in b.registry then (b, Unknown)
      else
        var id := b.registry[name];
        (Backend(b.registry - {name}, b.runners[id := BeginStop(b.runners[id])]), Ok)
    case Restart(name, spawnOk, signalOk) =>
      if name !in b.registry then (b, Unknown)
      else
        var id := b.registry[name];
        var (r, reply) := RequestRestart(b.runners[id], minBackoff, spawnOk, signalOk);
        (b.(runners := b.runners[id := r]), if reply == Done then Ok else Refused(reply))
    case Advance(id, step) =>
      (b.(runners := b.runners[id := Take(b.runners[id], step, minBackoff)]), Silent)
  }

  // What every step keeps.

  ghost predicate Tied(r: Runner, g: Goroutine)
    requires r.cmd < |r.processes|
  {
    && g.cmd == r.cmd
    && (g.at.Waiting? ==> r.alive && !r.processes[r.cmd].Reaped?)
    && (!g.at.Waiting? ==> r.processes[r.cmd].Reaped?)
    && (g.at.Reaping? ==> r.alive)
    && (g.at.BackingOff? || g.at.Waking? ==> !r.alive && r.status == Restarting && Allowed(r.policy, g.at.code))
    && (g.at.Returned? ==> !r.alive && (r.status == Stopped || r.status == Failed))
  }

  ghost predicate Sound(r: Runner, minBackoff: nat) {
    && |r.processes| == r.cmd + 1
    && r.supervisors != []
    && (forall k :: 0 <= k < r.cmd ==> r.processes[k].Reaped?)
    && (forall i :: 0 <= i < |r.supervisors| - 1 ==> r.supervisors[i].at.Returned?)
    && Tied(r, r.supervisors[|r.supervisors| - 1])
    && (r.alive <==> r.status == Starting || r.status == Running)
    && (r.status == Starting ==> !r.reachedRunning)
    && (r.supervisors[|r.supervisors| - 1].at.Returned? ==> r.stopping || (!r.supervising && !r.restartRequested))
    && (!r.supervisors[|r.supervisors| - 1].at.Returned? ==> r.supervising)
    && (forall i :: 0 <= i < |r.supervisors| ==> minBackoff <= r.supervisors[i].backoff)
    && (forall i :: 0 <= i < |r.supervisors| ==>
          r.supervisors[i].backoff == minBackoff || r.supervisors[i].backoff < 2 * BACKOFF_CAP_MS)
    && (forall k :: k in r.kills ==> k < |r.processes|)
    && (forall i :: 0 <= i < |r.killed| ==> r.killed[i] < |r.processes|)
  }

  lemma {:induction false} ReapKeepsSound(r: Runner, i: nat, ok: bool, minBackoff: nat)
    requires Sound(r, minBackoff) && Enabled(r, ReapStep(i, ok))
    ensures Sound(Reap(r, i, minBackoff, ok), minBackoff)
  {
    hide Sound;
    LastActs(r, i, minBackoff);
    if r.stopping {
      StoppedIsSound(r, i, minBackoff);
    } else if r.restartRequested {
      RespawnIsSound(r.(alive := false, restartRequested := false), r, i, ok, minBackoff);
    } else {
      DecidedIsSound(r, i, r.supervisors[i].at.code, minBackoff);
    }
  }

  /** The one supervisor that is not over is the last. */
  lemma {:induction false} LastActs(r: Runner, i: nat, minBackoff: nat)
    requires Sound(r, minBackoff) && i < |r.supervisors| && !r.supervisors[i].at.Returned?
    ensures i + 1 == |r.supervisors| && (!r.supervisors[i].at.Waiting? ==> Gone(r, i, minBackoff))
  {
  }

  /** Sound, and its process reaped. */
  ghost predicate Gone(r: Runner, i: nat, minBackoff: nat) {
    && Sound(r, minBackoff) && i + 1 == |r.supervisors|
    && forall k :: 0 <= k < |r.processes| ==> r.processes[k].Reaped?
  }

  lemma {:induction false} StoppedIsSound(r: Runner, i: nat, minBackoff: nat)
    requires Gone(r, i, minBackoff) && r.stopping
    ensures Sound(Placed(r.(alive := false, status := Stopped), i, Returned), minBackoff)
  {
  }

  lemma {:induction false} RespawnIsSound(r: Runner, was: Runner, i: nat, ok: bool, minBackoff: nat)
    requires Gone(was, i, minBackoff) && !was.supervisors[i].at.Returned?
    requires r == was.(alive := false, restartRequested := false)
    ensures Sound(Respawn(r, i, ok), minBackoff)
  {
    hide Allowed;
  }

  lemma {:induction false} DecidedIsSound(r: Runner, i: nat, code: int, minBackoff: nat)
    requires Gone(r, i, minBackoff) && !r.supervisors[i].at.Returned? && !r.restartRequested
    ensures Sound(Decided(r.(alive := false), i, code, minBackoff), minBackoff)
  {
    hide Allowed, Sound, Gone, Decided;
    if Allowed(r.policy, code) { BacksOff(r, i, code, minBackoff); } else { GivesUp(r, i, code, minBackoff); }
  }

  lemma {:induction false} BacksOff(r: Runner, i: nat, code: int, minBackoff: nat)
    requires Gone(r, i, minBackoff) && !r.supervisors[i].at.Returned? && Allowed(r.policy, code)
    ensures Sound(Decided(r.(alive := false), i, code, minBackoff), minBackoff)
  {
    hide Allowed;
  }

  lemma {:induction false} GivesUp(r: Runner, i: nat, code: int, minBackoff: nat)
    requires Gone(r, i, minBackoff) && !r.supervisors[i].at.Returned? && !Allowed(r.policy, code) && !r.restartRequested
    ensures Sound(Decided(r.(alive := false), i, code, minBackoff), minBackoff)
  {
    hide Allowed;
  }

  lemma {:induction false} WaitKeepsSound(r: Runner, i: nat, minBackoff: nat)
    requires Sound(r, minBackoff) && Enabled(r, WaitReturns(i))
    ensures Sound(Take(r, WaitReturns(i), minBackoff), minBackoff)
  {
  }

  lemma {:induction false} BackoffKeepsSound(r: Runner, i: nat, byToken: bool, minBackoff: nat)
    requires Sound(r, minBackoff) && Enabled(r, BackoffStep(i, byToken))
    ensures Sound(EndBackoff(r, i, byToken), minBackoff)
  {
  }

  lemma {:induction false} WakeKeepsSound(r: Runner, i: nat, ok: bool, minBackoff: nat)
    requires Sound(r, minBackoff) && Enabled(r, WakeStep(i, ok))
    ensures Sound(Wake(r, i, ok), minBackoff)
  {
    hide Sound, Respawn;
    LastActs(r, i, minBackoff);
    WakesDead(r, i, minBackoff);
    if r.stopping {
      StoppedIsSound(r, i, minBackoff);
      assert r.(alive := false, status := Stopped) == r.(status := Stopped);
    } else {
      RespawnIsSound(r.(restartRequested := false), r, i, ok, minBackoff);
    }
  }

  lemma {:induction false} WakesDead(r: Runner, i: nat, minBackoff: nat)
    requires Sound(r, minBackoff) && Enabled(r, WakeStep(i, true))
    ensures !r.alive
  {
  }

  lemma {:induction false} ExitKeepsSound(r: Runner, cmd: nat, code: int, minBackoff: nat)
    requires Sound(r, minBackoff) && Enabled(r, Exit(cmd, code))
    ensures Sound(Take(r, Exit(cmd, code), minBackoff), minBackoff)
  {
  }

  lemma {:induction false} ProbeKeepsSound(r: Runner, cmd: nat, minBackoff: nat)
    requires Sound(r, minBackoff)
    ensures Sound(MarkRunning(r, cmd), minBackoff)
  {
  }

  lemma {:induction false} KillKeepsSound(r: Runner, cmd: nat, minBackoff: nat)
    requires Sound(r, minBackoff) && Enabled(r, KillStep(cmd))
    ensures Sound(KillIfStill(r, cmd), minBackoff)
  {
    hide Sound, KillIfStill;
    KillTouches(r, cmd);
    var r' := KillIfStill(r, cmd);
    KillsExist(r, cmd, minBackoff);
    AsideIsSound(r, r'.kills, r'.killed, cmd, minBackoff);
  }

  lemma {:induction false} KillTouches(r: Runner, cmd: nat)
    ensures var r' := KillIfStill(r, cmd);
      && r' == r.(kills := r'.kills, killed := r'.killed) && r'.kills <= r.kills
      && (r'.killed == r.killed || r'.killed == r.killed + [cmd])
  {
  }

  lemma {:induction false} AsideIsSound(r: Runner, kills: multiset<nat>, killed: seq<nat>, cmd: nat, minBackoff: nat)
    requires Sound(r, minBackoff) && kills <= r.kills && cmd < |r.processes|
    requires killed == r.killed || killed == r.killed + [cmd]
    ensures Sound(r.(kills := kills, killed := killed), minBackoff)
  {
    hide Tied;
    assert forall k :: k in kills ==> k in r.kills;
    KillsAside(r, kills, killed, r.supervisors[|r.supervisors| - 1]);
  }

  lemma {:induction false} KillsAside(r: Runner, kills: multiset<nat>, killed: seq<nat>, g: Goroutine)
    requires r.cmd < |r.processes|
    ensures Tied(r.(kills := kills, killed := killed), g) <==> Tied(r, g)
  {
    hide Allowed;
  }

  lemma {:induction false} StepKeepsSound(r: Runner, s: Step, minBackoff: nat)
    requires Sound(r, minBackoff) && Enabled(r, s)
    ensures Sound(Take(r, s, minBackoff), minBackoff)
  {
    hide Sound, Reap, EndBackoff, Wake, MarkRunning, KillIfStill;
    match s
    case Exit(cmd, code) => ExitKeepsSound(r, cmd, code, minBackoff);
    case WaitReturns(i) => WaitKeepsSound(r, i, minBackoff);
    case ReapStep(i, ok) => ReapKeepsSound(r, i, ok, minBackoff);
    case BackoffStep(i, byToken) => BackoffKeepsSound(r, i, byToken, minBackoff);
    case WakeStep(i, ok) => WakeKeepsSound(r, i, ok, minBackoff);
    case ProbeAnswers(cmd) => ProbeKeepsSound(r, cmd, minBackoff);
    case KillStep(cmd) => KillKeepsSound(r, cmd, minBackoff);
  }

  lemma {:induction false} RestartKeepsSound(r: Runner, minBackoff: nat, spawnOk: bool, signalOk: bool)
    requires Sound(r, minBackoff) && !r.stopping
    ensures Sound(RequestRestart(r, minBackoff, spawnOk, signalOk).0, minBackoff)
  {
    hide Sound, Spawn, SuperviseFrom;
    if r.supervising {
      AskedIsSound(r, r.wake, r.kills, minBackoff);
      AskedIsSound(r, true, r.kills, minBackoff);
      CurrentExists(r, minBackoff);
      AskedIsSound(r, r.wake, r.kills + multiset{r.cmd}, minBackoff);
      assert r.(restartRequested := true) == r.(restartRequested := true, wake := r.wake, kills := r.kills);
    } else if spawnOk {
      AgainIsSound(r, minBackoff);
    } else {
      FailedIsSound(r, minBackoff);
    }
  }

  lemma {:induction false} CurrentExists(r: Runner, minBackoff: nat)
    requires Sound(r, minBackoff)
    ensures r.cmd < |r.processes|
  {
  }

  lemma {:induction false} AskedIsSound(r: Runner, wake: bool, kills: multiset<nat>, minBackoff: nat)
    requires Sound(r, minBackoff) && r.supervising && !r.stopping
    requires forall k :: k in kills ==> k in r.kills || (k == r.cmd && k < |r.processes|)
    ensures Sound(r.(restartRequested := true, wake := wake, kills := kills), minBackoff)
  {
    hide Allowed;
  }

  lemma {:induction false} AgainIsSound(r: Runner, minBackoff: nat)
    requires Sound(r, minBackoff) && !r.supervising
    ensures var tried := Spawn(r, true);
      Sound(SuperviseFrom(tried.(restarts := tried.restarts + 1), minBackoff), minBackoff)
  {
    hide Allowed;
  }

  lemma {:induction false} FailedIsSound(r: Runner, minBackoff: nat)
    requires Sound(r, minBackoff) && !r.supervising
    ensures Sound(Spawn(r, false).(status := Failed), minBackoff)
  {
    hide Allowed;
  }

  ghost predicate Good(b: Backend, minBackoff: nat) {
    && (forall id :: 0 <= id < |b.runners| ==> Sound(b.runners[id], minBackoff))
    && (forall n :: n in b.registry ==> b.registry[n] < |b.runners| && !b.runners[b.registry[n]].stopping)
    && (forall n, m :: n in b.registry && m in b.registry && b.registry[n] == b.registry[m] ==> n == m)
    && (forall id :: 0 <= id < |b.runners| && !b.runners[id].stopping ==> id in b.registry.Values)
  }

  lemma {:induction false} ActKeepsGood(b: Backend, a: Action, minBackoff: nat)
    requires Good(b, minBackoff) && CanAct(b, a)
    ensures Good(Act(b, a, minBackoff).0, minBackoff)
  {
    hide Sound, RequestRestart, Take, Good, Spawn, SuperviseFrom, Fresh, BeginStop;
    match a
    case Start(name, restart, spawnOk) =>
      var policy := ParsePolicy(restart).0;
      StartedSound(policy, minBackoff);
      if name !in b.registry { AddKeepsGood(b, name, SuperviseFrom(Spawn(Fresh(policy), true), minBackoff), minBackoff); }
    case Stop(name) =>
      if name in b.registry { StopKeepsGood(b, name, minBackoff); }
    case Restart(name, spawnOk, signalOk) =>
      if name in b.registry {
        var r := b.runners[b.registry[name]];
        Registered(b, name, minBackoff);
        RestartKeepsSound(r, minBackoff, spawnOk, signalOk);
        RestartKeepsStopping(r, minBackoff, spawnOk, signalOk);
        ReplaceKeepsGood(b, b.registry[name], RequestRestart(r, minBackoff, spawnOk, signalOk).0, minBackoff);
      }
    case Advance(id, step) =>
      RunnerSound(b, id, minBackoff);
      StepKeepsSound(b.runners[id], step, minBackoff);
      StepKeepsStopping(b.runners[id], step, minBackoff);
      ReplaceKeepsGood(b, id, Take(b.runners[id], step, minBackoff), minBackoff);
  }

  lemma {:induction false} RunnerSound(b: Backend, id: nat, minBackoff: nat)
    requires Good(b, minBackoff) && id < |b.runners|
    ensures Sound(b.runners[id], minBackoff)
  {
  }

  lemma {:induction false} Registered(b: Backend, name: string, minBackoff: nat)
    requires Good(b, minBackoff) && name in b.registry
    ensures b.registry[name] < |b.runners|
    ensures Sound(b.runners[b.registry[name]], minBackoff) && !b.runners[b.registry[name]].stopping
  {
  }

  lemma {:induction false} ReplaceKeepsGood(b: Backend, id: nat, r: Runner, minBackoff: nat)
    requires Good(b, minBackoff) && id < |b.runners| && Sound(r, minBackoff) && r.stopping == b.runners[id].stopping
    ensures Good(b.(runners := b.runners[id := r]), minBackoff)
  {
    hide Sound;
  }

  lemma {:induction false} AddKeepsGood(b: Backend, name: string, r: Runner, minBackoff: nat)
    requires Good(b, minBackoff) && name !in b.registry && Sound(r, minBackoff) && !r.stopping
    ensures Good(Backend(b.registry[name := |b.runners|], b.runners + [r]), minBackoff)
  {
    hide Sound;
    RegistryGrows(b, Backend(b.registry[name := |b.runners|], b.runners + [r]), name);
  }

  lemma {:induction false} StopKeepsGood(b: Backend, name: string, minBackoff: nat)
    requires Good(b, minBackoff) && name in b.registry
    ensures Good(Act(b, Stop(name), minBackoff).0, minBackoff)
  {
    hide Sound;
    StopKeepsSound(b.runners[b.registry[name]], minBackoff);
    RegistryShrinks(b, Act(b, Stop(name), minBackoff).0, name);
  }

  lemma {:induction false} StartedSound(policy: Policy, minBackoff: nat)
    ensures Sound(SuperviseFrom(Spawn(Fresh(policy), true), minBackoff), minBackoff)
    ensures !SuperviseFrom(Spawn(Fresh(policy), true), minBackoff).stopping
  {
  }

  lemma {:induction false} StopKeepsSound(r: Runner, minBackoff: nat)
    requires Sound(r, minBackoff)
    ensures Sound(BeginStop(r), minBackoff)
  {
  }

  lemma {:induction false} StepKeepsStopping(r: Runner, s: Step, minBackoff: nat)
    requires Enabled(r, s)
    ensures Take(r, s, minBackoff).stopping == r.stopping
  {
    match s
    case Exit(cmd, code) =>
    case WaitReturns(i) =>
    case ReapStep(i, ok) =>
    case BackoffStep(i, byToken) =>
    case WakeStep(i, ok) =>
    case ProbeAnswers(cmd) =>
    case KillStep(cmd) =>
  }

  lemma {:induction false} RestartKeepsStopping(r: Runner, minBackoff: nat, spawnOk: bool, signalOk: bool)
    ensures RequestRestart(r, minBackoff, spawnOk, signalOk).0.stopping == r.stopping
  {
  }

  lemma {:induction false} RegistryGrows(b: Backend, b': Backend, name: string)
    requires name !in b.registry
    requires b' == b || (b'.registry == b.registry[name := |b.runners|] && |b'.runners| == |b.runners| + 1)
    ensures forall id :: id in b.registry.Values ==> id in b'.registry.Values
    ensures b' == b || |b.runners| in b'.registry.Values
  {
    forall id | id in b.registry.Values ensures id in b'.registry.Values {
      var n :| n in b.registry && b.registry[n] == id;
      assert n in b'.registry && b'.registry[n] == id;
    }
    if b' != b { assert b'.registry[name] == |b.runners|; }
  }

  lemma {:induction false} RegistryShrinks(b: Backend, b': Backend, name: string)
    requires name in b.registry && b'.registry == b.registry - {name}
    ensures forall id :: id in b.registry.Values && id != b.registry[name] ==> id in b'.registry.Values
  {
    forall id | id in b.registry.Values && id != b.registry[name] ensures id in b'.registry.Values {
      var n :| n in b.registry && b.registry[n] == id;
      assert n in b'.registry && b'.registry[n] == id;
    }
  }

  // Whole runs: any interleaving of callers, goroutines, timers and process exits.

  ghost predicate IsTrace(states: seq<Backend>, actions: seq<Action>, minBackoff: nat) {
    && |states| == |actions| + 1
    && forall i :: 0 <= i < |actions| ==>
         CanAct(states[i], actions[i]) && states[i + 1] == Act(states[i], actions[i], minBackoff).0
  }

  ghost predicate IsRun(states: seq<Backend>, actions: seq<Action>, minBackoff: nat) {
    IsTrace(states, actions, minBackoff) && states[0] == Backend(map[], [])
  }

  lemma {:induction false} EveryRunIsGood(states: seq<Backend>, actions: seq<Action>, minBackoff: nat, i: nat)
    requires IsRun(states, actions, minBackoff) && i < |states|
    ensures Good(states[i], minBackoff)
  {
    hide Act, CanAct;
    if i > 0 {
      EveryRunIsGood(states, actions, minBackoff, i - 1);
      ActKeepsGood(states[i-1], actions[i-1], minBackoff);
    }
  }

  /** However the steps interleave, a runner has at most one OS process not yet reaped and at most one
      supervisor not yet returned; with the mutex free it is alive exactly when its status says so; and
      its crash backoff is within bounds. */
  lemma {:induction false} OneProcessOneSupervisor(states: seq<Backend>, actions: seq<Action>, minBackoff: nat,
      i: nat, id: nat)
    requires IsRun(states, actions, minBackoff) && i < |states| && id < |states[i].runners|
    ensures var r := states[i].runners[id];
      && (forall j :: 0 <= j < |r.processes| && !r.processes[j].Reaped? ==> j == r.cmd)
      && (forall j :: 0 <= j < |r.supervisors| && !r.supervisors[j].at.Returned? ==> j == |r.supervisors| - 1)
      && (r.alive <==> r.status == Starting || r.status == Running)
      && (forall j :: 0 <= j < |r.supervisors| ==>
            minBackoff <= r.supervisors[j].backoff && (minBackoff <= 60_000 ==> r.supervisors[j].backoff <= 60_000))
  {
    EveryRunIsGood(states, actions, minBackoff, i);
    RunnerSound(states[i], id, minBackoff);
  }

  function Last(r: Runner): Goroutine
    requires r.supervisors != []
  {
    r.supervisors[|r.supervisors| - 1]
  }

  /** One step never forgets: processes, attempts and the decision to stop only accumulate. */
  ghost predicate Grows(r: Runner, r': Runner) {
    && |r.processes| <= |r'.processes| && r.attempts <= r'.attempts
    && (r.stopping ==> r'.stopping && r'.attempts == r.attempts && |r'.processes| == |r.processes|)
  }

  lemma {:induction false} ActGrows(b: Backend, a: Action, minBackoff: nat, id: nat)
    requires Good(b, minBackoff) && CanAct(b, a) && id < |b.runners|
    ensures id < |Act(b, a, minBackoff).0.runners|
    ensures Grows(b.runners[id], Act(b, a, minBackoff).0.runners[id])
  {
    hide Sound, Take, RequestRestart;
    match a
    case Start(name, restart, spawnOk) =>
    case Stop(name) =>
    case Restart(name, spawnOk, signalOk) =>
      if name in b.registry { RestartGrows(b.runners[b.registry[name]], minBackoff, spawnOk, signalOk); Registered(b, name, minBackoff); }
    case Advance(i, step) => StepGrows(b.runners[i], step, minBackoff);
  }

  lemma {:induction false} RestartGrows(r: Runner, minBackoff: nat, spawnOk: bool, signalOk: bool)
    requires !r.stopping
    ensures Grows(r, RequestRestart(r, minBackoff, spawnOk, signalOk).0)
  {
  }

  lemma {:induction false} StepGrows(r: Runner, s: Step, minBackoff: nat)
    requires Enabled(r, s)
    ensures Grows(r, Take(r, s, minBackoff))
  {
  }

  /** Once `Stop` has set `stopping`, nothing is spawned again, in any continuation. */
  lemma {:induction false} NothingSpawnedAfterStop(states: seq<Backend>, actions: seq<Action>, minBackoff: nat,
      i: nat, j: nat, id: nat)
    requires IsRun(states, actions, minBackoff) && i <= j < |states| && id < |states[i].runners|
    ensures id < |states[j].runners| && Grows(states[i].runners[id], states[j].runners[id])
  {
    hide Act, CanAct, Good;
    if i < j {
      NothingSpawnedAfterStop(states, actions, minBackoff, i, j - 1, id);
      EveryRunIsGood(states, actions, minBackoff, j - 1);
      ActGrows(states[j-1], actions[j-1], minBackoff, id);
    }
  }

  /** `Stop` may return: its runner stopping, the supervisor it waits on returned. */
  ghost predicate Over(r: Runner) {
    r.stopping && r.supervisors != [] && Last(r).at.Returned?
  }

  /** When `Stop` returns nothing is left behind, then or ever after. */
  lemma {:induction false} StopLeavesNothing(states: seq<Backend>, actions: seq<Action>, minBackoff: nat, i: nat,
      j: nat, id: nat)
    requires IsRun(states, actions, minBackoff) && i <= j < |states|
    requires id < |states[i].runners| && Over(states[i].runners[id])
    ensures id < |states[j].runners|
    ensures var r := states[j].runners[id];
      && !r.alive && Over(r)
      && (forall k :: 0 <= k < |r.processes| ==> r.processes[k].Reaped?)
      && (forall k :: 0 <= k < |r.supervisors| ==> r.supervisors[k].at.Returned?)
  {
    hide Act, CanAct, Good;
    EveryRunIsGood(states, actions, minBackoff, j);
    if i < j {
      StopLeavesNothing(states, actions, minBackoff, i, j - 1, id);
      EveryRunIsGood(states, actions, minBackoff, j - 1);
      StaysOver(states[j-1], actions[j-1], minBackoff, id);
    }
    RunnerSound(states[j], id, minBackoff);
  }

  lemma {:induction false} StaysOver(b: Backend, a: Action, minBackoff: nat, id: nat)
    requires Good(b, minBackoff) && CanAct(b, a) && id < |b.runners| && Over(b.runners[id])
    ensures var b' := Act(b, a, minBackoff).0;
      id < |b'.runners| && Over(b'.runners[id])
  {
    hide Sound, Take, RequestRestart;
    RunnerSound(b, id, minBackoff);
    match a
    case Start(name, restart, spawnOk) =>
    case Stop(name) =>
    case Restart(name, spawnOk, signalOk) => if name in b.registry { Registered(b, name, minBackoff); }
    case Advance(i, step) =>
      if i == id {
        ReturnedStep(b.runners[id], step, minBackoff);
        StepKeepsStopping(b.runners[id], step, minBackoff);
      }
  }

  lemma {:induction false} ReturnedStep(r: Runner, s: Step, minBackoff: nat)
    requires Sound(r, minBackoff) && Last(r).at.Returned? && Enabled(r, s)
    ensures Take(r, s, minBackoff).supervisors == r.supervisors
  {
  }

  // A restart that was promised is attempted.

  /** A fresh spawn since `attempts` was read, or a stop, or a live supervisor that still owes one: in a
      backoff the token to end it is there, and a process still to end has a kill on its way, or has had it. */
  ghost predicate Owed(r: Runner, attempts: nat) {
    || r.stopping
    || r.attempts > attempts
    || (r.attempts == attempts && r.restartRequested && r.supervisors != [] && Owes(r, Last(r).at))
  }

  ghost predicate Owes(r: Runner, at: Place) {
    && !at.Returned?
    && (at.BackingOff? ==> r.wake)
    && (at.Waiting? ==> r.cmd in r.kills || r.cmd in r.killed)
  }

  ghost predicate Paid(r: Runner, attempts: nat) {
    r.stopping || r.attempts > attempts
  }

  /** The supervisor of runner `id` passes through one of its regions under the mutex. */
  ghost predicate ActsFor(a: Action, id: nat) {
    a.Advance? && a.id == id && (a.step.ReapStep? || a.step.WakeStep?)
  }

  lemma {:induction false} StepKeepsOwed(r: Runner, s: Step, minBackoff: nat, attempts: nat)
    requires Sound(r, minBackoff) && Enabled(r, s) && Owed(r, attempts)
    ensures Owed(Take(r, s, minBackoff), attempts)
    ensures s.ReapStep? || s.WakeStep? || Paid(r, attempts) ==> Paid(Take(r, s, minBackoff), attempts)
  {
    hide Sound, Enabled, Take, Owed, Paid;
    match s
    case Exit(cmd, code) => ExitOwes(r, cmd, code, minBackoff, attempts);
    case WaitReturns(i) => WaitOwes(r, i, minBackoff, attempts);
    case ReapStep(i, ok) => ReapPays(r, i, minBackoff, ok, attempts);
    case BackoffStep(i, byToken) => BackoffOwes(r, i, byToken, minBackoff, attempts);
    case WakeStep(i, ok) => WakePays(r, i, ok, minBackoff, attempts);
    case ProbeAnswers(cmd) => ProbeOwes(r, cmd, minBackoff, attempts);
    case KillStep(cmd) => KillOwes(r, cmd, minBackoff, attempts);
  }

  ghost predicate StaysOwed(r: Runner, r': Runner, attempts: nat) {
    Owed(r', attempts) && (Paid(r, attempts) ==> Paid(r', attempts))
  }

  lemma {:induction false} ExitOwes(r: Runner, cmd: nat, code: int, minBackoff: nat, attempts: nat)
    requires Enabled(r, Exit(cmd, code)) && Owed(r, attempts)
    ensures StaysOwed(r, Take(r, Exit(cmd, code), minBackoff), attempts)
  {
  }

  lemma {:induction false} WaitOwes(r: Runner, i: nat, minBackoff: nat, attempts: nat)
    requires Sound(r, minBackoff) && Enabled(r, WaitReturns(i)) && Owed(r, attempts)
    ensures StaysOwed(r, Take(r, WaitReturns(i), minBackoff), attempts)
  {
    hide Sound;
    LastActs(r, i, minBackoff);
  }

  lemma {:induction false} ReapPays(r: Runner, i: nat, minBackoff: nat, ok: bool, attempts: nat)
    requires Enabled(r, ReapStep(i, ok)) && Owed(r, attempts)
    ensures var r' := Take(r, ReapStep(i, ok), minBackoff);
      StaysOwed(r, r', attempts) && Paid(r', attempts)
  {
    hide Decided;
    DecidedTries(r.(alive := false), i, r.supervisors[i].at.code, minBackoff);
  }

  lemma {:induction false} DecidedTries(r: Runner, i: nat, code: int, minBackoff: nat)
    requires i < |r.supervisors|
    ensures var r' := Decided(r, i, code, minBackoff);
      r'.attempts == r.attempts && r'.stopping == r.stopping
  {
    hide Allowed;
  }

  lemma {:induction false} WakePays(r: Runner, i: nat, ok: bool, minBackoff: nat, attempts: nat)
    requires Enabled(r, WakeStep(i, ok)) && Owed(r, attempts)
    ensures var r' := Take(r, WakeStep(i, ok), minBackoff);
      StaysOwed(r, r', attempts) && Paid(r', attempts)
  {
  }

  lemma {:induction false} BackoffOwes(r: Runner, i: nat, byToken: bool, minBackoff: nat, attempts: nat)
    requires Sound(r, minBackoff) && Enabled(r, BackoffStep(i, byToken)) && Owed(r, attempts)
    ensures StaysOwed(r, Take(r, BackoffStep(i, byToken), minBackoff), attempts)
  {
    hide Sound;
    LastActs(r, i, minBackoff);
  }

  lemma {:induction false} ProbeOwes(r: Runner, cmd: nat, minBackoff: nat, attempts: nat)
    requires Enabled(r, ProbeAnswers(cmd)) && Owed(r, attempts)
    ensures StaysOwed(r, Take(r, ProbeAnswers(cmd), minBackoff), attempts)
  {
  }

  /** A kill that fires for the current process, while that is waited for, has hit it. */
  lemma {:induction false} KillOwes(r: Runner, cmd: nat, minBackoff: nat, attempts: nat)
    requires Sound(r, minBackoff) && Enabled(r, KillStep(cmd)) && Owed(r, attempts)
    ensures StaysOwed(r, Take(r, KillStep(cmd), minBackoff), attempts)
  {
    hide Sound;
    AliveWaiting(r, minBackoff);
  }

  lemma {:induction false} AliveWaiting(r: Runner, minBackoff: nat)
    requires Sound(r, minBackoff)
    ensures r.supervisors != [] && (Last(r).at.Waiting? ==> r.alive)
  {
  }

  lemma {:induction false} RequestOwes(r: Runner, minBackoff: nat, spawnOk: bool, signalOk: bool, attempts: nat)
    requires Sound(r, minBackoff)
    ensures var (r', reply) := RequestRestart(r, minBackoff, spawnOk, signalOk);
      && (Owed(r, attempts) ==> Owed(r', attempts))
      && (Paid(r, attempts) ==> Paid(r', attempts))
      && (reply == Done ==> Owed(r', r.attempts) && (!r.supervising ==> Paid(r', r.attempts)))
  {
  }

  lemma {:induction false} ActKeepsOwed(b: Backend, a: Action, minBackoff: nat, id: nat, attempts: nat)
    requires Good(b, minBackoff) && CanAct(b, a) && id < |b.runners| && Owed(b.runners[id], attempts)
    ensures var b' := Act(b, a, minBackoff).0;
      && id < |b'.runners| && Owed(b'.runners[id], attempts)
      && (ActsFor(a, id) || Paid(b.runners[id], attempts) ==> Paid(b'.runners[id], attempts))
  {
    hide Sound, Take, RequestRestart;
    RunnerSound(b, id, minBackoff);
    match a
    case Start(name, restart, spawnOk) =>
    case Stop(name) =>
    case Restart(name, spawnOk, signalOk) => RequestOwes(b.runners[id], minBackoff, spawnOk, signalOk, attempts);
    case Advance(i, step) => if i == id { StepKeepsOwed(b.runners[id], step, minBackoff, attempts); }
  }

  /** Every `Restart` that returns nil is followed by a fresh spawn attempt, unless a stop comes: at
      once when nothing supervised the runner, and otherwise by the supervisor's next region. */
  lemma {:induction false} RestartIsHonoured(states: seq<Backend>, actions: seq<Action>, minBackoff: nat, i: nat,
      j: nat, id: nat)
    requires IsRun(states, actions, minBackoff) && i < j < |states| && id < |states[i].runners|
    requires Restarts(states[i], actions[i], id) && Act(states[i], actions[i], minBackoff).1 == Ok
    ensures id < |states[j].runners|
    ensures var r, r' := states[i].runners[id], states[j].runners[id];
      && Owed(r', r.attempts)
      && (!r.supervising || (exists k :: i < k < j && ActsFor(actions[k], id)) ==> Paid(r', r.attempts))
  {
    hide Act, CanAct, Good;
    EveryRunIsGood(states, actions, minBackoff, i);
    if j == i + 1 {
      RestartOwes(states[i], actions[i], minBackoff, id);
    } else {
      RestartIsHonoured(states, actions, minBackoff, i, j - 1, id);
      EveryRunIsGood(states, actions, minBackoff, j - 1);
      ActKeepsOwed(states[j-1], actions[j-1], minBackoff, id, states[i].runners[id].attempts);
    }
  }

  /** The process is still to end, and has been killed or has a kill set for it. */
  ghost predicate Doomed(r: Runner) {
    r.alive && r.cmd < |r.processes| && r.processes[r.cmd].Live? && (r.cmd in r.kills || r.cmd in r.killed)
  }

  lemma {:induction false} OwedIsServed(r: Runner, minBackoff: nat, attempts: nat, ok: bool) returns (s: Step)
    requires Sound(r, minBackoff) && Owed(r, attempts) && !Paid(r, attempts)
    ensures Enabled(r, s) || Doomed(r)
    ensures var i := |r.supervisors| - 1;
      i >= 0 && s in {WaitReturns(i), ReapStep(i, ok), BackoffStep(i, true), WakeStep(i, ok)}
  {
    var i := |r.supervisors| - 1;
    assert Tied(r, Last(r));
    match Last(r).at
    case Waiting => s := WaitReturns(i);
    case Reaping(code) => s := ReapStep(i, ok);
    case BackingOff(code) => s := BackoffStep(i, true);
    case Waking(code) => s := WakeStep(i, ok);
  }

  /** And nothing of the daemon's own holds it up: until the attempt is made the supervisor's next step can
      be taken -- in a backoff, on the token -- unless it waits for a process that is killed or about to be. */
  lemma {:induction false} RestartIsServed(states: seq<Backend>, actions: seq<Action>, minBackoff: nat, i: nat, j: nat,
      id: nat, ok: bool)
    returns (s: Step)
    requires IsRun(states, actions, minBackoff) && i < j < |states| && id < |states[i].runners|
    requires Restarts(states[i], actions[i], id) && Act(states[i], actions[i], minBackoff).1 == Ok
    requires id < |states[j].runners| && !Paid(states[j].runners[id], states[i].runners[id].attempts)
    ensures CanAct(states[j], Advance(id, s)) || Doomed(states[j].runners[id])
    ensures var n := |states[j].runners[id].supervisors| - 1;
      n >= 0 && s in {WaitReturns(n), ReapStep(n, ok), BackoffStep(n, true), WakeStep(n, ok)}
  {
    hide Act, Sound, Owed, Paid, Enabled, Doomed;
    EveryRunIsGood(states, actions, minBackoff, j);
    RunnerSound(states[j], id, minBackoff);
    RestartIsHonoured(states, actions, minBackoff, i, j, id);
    s := OwedIsServed(states[j].runners[id], minBackoff, states[i].runners[id].attempts, ok);
  }

  ghost predicate Restarts(b: Backend, a: Action, id: nat) {
    a.Restart? && a.name in b.registry && b.registry[a.name] == id
  }

  lemma {:induction false} RestartOwes(b: Backend, a: Action, minBackoff: nat, id: nat)
    requires Good(b, minBackoff) && CanAct(b, a) && id < |b.runners| && Restarts(b, a, id) && Act(b, a, minBackoff).1 == Ok
    ensures var (r, b') := (b.runners[id], Act(b, a, minBackoff).0);
      id < |b'.runners| && Owed(b'.runners[id], r.attempts) && (!r.supervising ==> Paid(b'.runners[id], r.attempts))
  {
  }

  /** And a runner that exists is tried again only on a restart request or where its policy allows it:
      never on its own after exit code 2, a clean exit under on-failure, or any exit under never. */
  lemma {:induction false} SpawnNeedsAReason(b: Backend, a: Action, minBackoff: nat, id: nat)
    requires Good(b, minBackoff) && CanAct(b, a) && id < |b.runners|
    requires id < |Act(b, a, minBackoff).0.runners| && Act(b, a, minBackoff).0.runners[id].attempts != b.runners[id].attempts
    ensures var r := b.runners[id];
      || (Restarts(b, a, id) && !r.supervising)
      || (ActsFor(a, id) && !r.stopping && MayRespawn(r, a.step))
  {
    hide Sound, Take, RequestRestart, MayRespawn;
    RunnerSound(b, id, minBackoff);
    match a
    case Start(name, restart, spawnOk) =>
    case Stop(name) =>
    case Restart(name, spawnOk, signalOk) => RequestReason(b.runners[id], minBackoff, spawnOk, signalOk);
    case Advance(i, step) => if i == id { StepReason(b.runners[id], step, minBackoff); }
  }

  ghost predicate MayRespawn(r: Runner, s: Step) {
    || r.restartRequested
    || (s.WakeStep? && r.supervisors != [] && !Last(r).at.Waiting? && !Last(r).at.Returned?
        && Last(r).at.code != 2 && (r.policy == Always || (r.policy == OnFailure && Last(r).at.code != 0)))
  }

  lemma {:induction false} RequestReason(r: Runner, minBackoff: nat, spawnOk: bool, signalOk: bool)
    ensures RequestRestart(r, minBackoff, spawnOk, signalOk).0.attempts != r.attempts ==> !r.supervising
  {
  }

  lemma {:induction false} StepReason(r: Runner, s: Step, minBackoff: nat)
    requires Sound(r, minBackoff) && Enabled(r, s) && Take(r, s, minBackoff).attempts != r.attempts
    ensures (s.ReapStep? || s.WakeStep?) && !r.stopping && MayRespawn(r, s)
  {
  }

  /** What an exit means when neither a stop nor a restart is pending. Under always with any code but 2, and
      under on-failure with any but 0 and 2, the runner waits to be tried again, as long as before if it
      never answered its probe and from the bottom if it did; otherwise it is given up, failed unless
      the code was 0. Nothing is spawned yet. */
  lemma {:induction false} PolicyDecides(r: Runner, i: nat, ok: bool, minBackoff: nat)
    requires Sound(r, minBackoff) && Enabled(r, ReapStep(i, ok)) && !r.stopping && !r.restartRequested
    ensures var (code, r') := (r.supervisors[i].at.code, Take(r, ReapStep(i, ok), minBackoff));
      && !r'.alive && r'.attempts == r.attempts && |r'.supervisors| == i + 1
      && (code != 2 && (r.policy == Always || (r.policy == OnFailure && code != 0)) ==>
            && r'.status == Restarting && r'.supervising && r'.supervisors[i].at == BackingOff(code)
            && r'.supervisors[i].backoff == if r.reachedRunning then minBackoff else r.supervisors[i].backoff)
      && (code == 2 || r.policy == Never || (r.policy == OnFailure && code == 0) ==>
            && r'.supervisors[i].at == Returned && !r'.supervising
            && r'.status == if code != 0 then Failed else Stopped)
  {
    LastActs(r, i, minBackoff);
  }

  /** The wait ends on the timer or on a token, which it uses up, and the next is twice as long unless this
      one was half a minute already. */
  lemma {:induction false} WaitsDouble(r: Runner, i: nat, byToken: bool, minBackoff: nat)
    requires Enabled(r, BackoffStep(i, byToken))
    ensures var (g, r') := (r.supervisors[i], Take(r, BackoffStep(i, byToken), minBackoff));
      && |r'.supervisors| == |r.supervisors| && r'.supervisors[i].at == Waking(g.at.code)
      && (g.backoff < 30_000 ==> r'.supervisors[i].backoff == g.backoff + g.backoff)
      && (g.backoff >= 30_000 ==> r'.supervisors[i].backoff == g.backoff)
      && (r'.wake <==> r.wake && !byToken) && r'.attempts == r.attempts
  {
  }

  /** Tried since `attempts` was read, or stopped, or about to be: in a backoff or just out of it. */
  ghost predicate Pending(r: Runner, attempts: nat) {
    || Paid(r, attempts)
    || (r.attempts == attempts && r.supervisors != [] && (Last(r).at.BackingOff? || Last(r).at.Waking?))
  }

  lemma {:induction false} StepKeepsPending(r: Runner, s: Step, minBackoff: nat, attempts: nat)
    requires Sound(r, minBackoff) && Enabled(r, s) && Pending(r, attempts)
    ensures Pending(Take(r, s, minBackoff), attempts)
    ensures s.WakeStep? || Paid(r, attempts) ==> Paid(Take(r, s, minBackoff), attempts)
  {
    hide Sound, Allowed;
    if Paid(r, attempts) {
      StepGrows(r, s, minBackoff);
    } else {
      BackingOffActs(r, s, minBackoff);
    }
  }

  /** In a backoff or just out of it, the supervisor is the only one with a step. */
  lemma {:induction false} BackingOffActs(r: Runner, s: Step, minBackoff: nat)
    requires Sound(r, minBackoff) && Enabled(r, s) && r.supervisors != [] && (Last(r).at.BackingOff? || Last(r).at.Waking?)
    ensures !s.WaitReturns? && !s.ReapStep? && (s.BackoffStep? || s.WakeStep? ==> s.i + 1 == |r.supervisors|)
  {
  }

  lemma {:induction false} ActKeepsPending(b: Backend, a: Action, minBackoff: nat, id: nat, attempts: nat)
    requires Good(b, minBackoff) && CanAct(b, a) && id < |b.runners| && Pending(b.runners[id], attempts)
    ensures var b' := Act(b, a, minBackoff).0;
      && id < |b'.runners| && Pending(b'.runners[id], attempts)
      && (Wakes(a, id) || Paid(b.runners[id], attempts) ==> Paid(b'.runners[id], attempts))
  {
    hide Sound, Take, RequestRestart;
    RunnerSound(b, id, minBackoff);
    match a
    case Start(name, restart, spawnOk) =>
    case Stop(name) =>
    case Restart(name, spawnOk, signalOk) => RequestPends(b.runners[id], minBackoff, spawnOk, signalOk, attempts);
    case Advance(i, step) => if i == id { StepKeepsPending(b.runners[id], step, minBackoff, attempts); }
  }

  lemma {:induction false} RequestPends(r: Runner, minBackoff: nat, spawnOk: bool, signalOk: bool, attempts: nat)
    requires Sound(r, minBackoff) && Pending(r, attempts)
    ensures var r' := RequestRestart(r, minBackoff, spawnOk, signalOk).0;
      Pending(r', attempts) && (Paid(r, attempts) ==> Paid(r', attempts))
  {
    hide Allowed;
  }

  ghost predicate Wakes(a: Action, id: nat) {
    a.Advance? && a.id == id && a.step.WakeStep?
  }

  /** `supervise` of runner `id` reads an exit that its policy answers by trying again, nobody having asked. */
  ghost predicate Retries(b: Backend, a: Action, id: nat) {
    && a.Advance? && a.id == id && a.step.ReapStep? && id < |b.runners| && Enabled(b.runners[id], a.step)
    && !b.runners[id].stopping && !b.runners[id].restartRequested
    && var code := b.runners[id].supervisors[a.step.i].at.code;
       code != 2 && (b.runners[id].policy == Always || (b.runners[id].policy == OnFailure && code != 0))
  }

  /** Such an exit is followed by a spawn attempt unless a stop comes, however the run goes on: at the latest
      when the supervisor wakes. And until then nothing holds it up, for its next step can be taken: the
      timer's end of the backoff, and the waking after it. */
  lemma {:induction false} PolicyIsFollowed(states: seq<Backend>, actions: seq<Action>, minBackoff: nat, i: nat, j: nat,
      id: nat, ok: bool)
    requires IsRun(states, actions, minBackoff) && i < j < |states| && Retries(states[i], actions[i], id)
    ensures id < |states[j].runners|
    ensures var (r, r', n) := (states[i].runners[id], states[j].runners[id], |states[j].runners[id].supervisors| - 1);
      && (Paid(r', r.attempts)
          || (n >= 0 && (CanAct(states[j], Advance(id, BackoffStep(n, false))) || CanAct(states[j], Advance(id, WakeStep(n, ok))))))
      && ((exists k :: i < k < j && Wakes(actions[k], id)) ==> Paid(r', r.attempts))
  {
    hide Act, Good, Sound, Paid;
    PendsAfterExit(states, actions, minBackoff, i, j, id);
    EveryRunIsGood(states, actions, minBackoff, j);
    RegistryExists(states[j], minBackoff);
  }

  lemma {:induction false} RegistryExists(b: Backend, minBackoff: nat)
    requires Good(b, minBackoff)
    ensures forall n :: n in b.registry ==> b.registry[n] < |b.runners|
  {
  }

  lemma {:induction false} PendsAfterExit(states: seq<Backend>, actions: seq<Action>, minBackoff: nat, i: nat, j: nat,
      id: nat)
    requires IsRun(states, actions, minBackoff) && i < j < |states| && Retries(states[i], actions[i], id)
    ensures id < |states[j].runners| && Pending(states[j].runners[id], states[i].runners[id].attempts)
    ensures (exists k :: i < k < j && Wakes(actions[k], id)) ==> Paid(states[j].runners[id], states[i].runners[id].attempts)
  {
    hide Act, CanAct, Good, Pending, Paid, Wakes;
    EveryRunIsGood(states, actions, minBackoff, i);
    if j == i + 1 {
      ExitPends(states[i], actions[i], minBackoff, id);
    } else {
      PendsAfterExit(states, actions, minBackoff, i, j - 1, id);
      EveryRunIsGood(states, actions, minBackoff, j - 1);
      ActKeepsPending(states[j-1], actions[j-1], minBackoff, id, states[i].runners[id].attempts);
    }
  }

  lemma {:induction false} ExitPends(b: Backend, a: Action, minBackoff: nat, id: nat)
    requires Good(b, minBackoff) && CanAct(b, a) && Retries(b, a, id)
    ensures var b' := Act(b, a, minBackoff).0;
      id < |b'.runners| && Pending(b'.runners[id], b.runners[id].attempts)
  {
    hide Sound, Take;
    RunnerSound(b, id, minBackoff);
    PolicyDecides(b.runners[id], a.step.i, a.step.ok, minBackoff);
  }

  /** Whoever makes the attempt, it leaves either a new process, current, live and waited for, or none and
      the runner failed until someone restarts it. */
  lemma {:induction false} AttemptsSpawn(b: Backend, a: Action, minBackoff: nat, id: nat)
    requires Good(b, minBackoff) && CanAct(b, a) && id < |b.runners|
    requires id < |Act(b, a, minBackoff).0.runners| && Act(b, a, minBackoff).0.runners[id].attempts != b.runners[id].attempts
    ensures var (r, r') := (b.runners[id], Act(b, a, minBackoff).0.runners[id]);
      && r'.attempts == r.attempts + 1
      && (Spawned(r, r') || LeftFailed(r, r'))
  {
    hide Sound, Take, RequestRestart, Spawned;
    RunnerSound(b, id, minBackoff);
    match a
    case Start(name, restart, spawnOk) =>
    case Stop(name) =>
    case Restart(name, spawnOk, signalOk) => RequestSpawns(b.runners[id], minBackoff, spawnOk, signalOk);
    case Advance(i, step) => if i == id { StepSpawns(b.runners[id], step, minBackoff); }
  }

  ghost predicate Spawned(r: Runner, r': Runner) {
    && r'.processes == r.processes + [Live] && r'.cmd == |r.processes| && r'.alive && r'.status == Starting
    && !r'.reachedRunning && r'.restarts == r.restarts + 1 && r'.supervising
    && r'.supervisors != [] && Last(r').at == Waiting && Last(r').cmd == |r.processes|
  }

  ghost predicate LeftFailed(r: Runner, r': Runner) {
    && r'.processes == r.processes && !r'.alive && r'.status == Failed && !r'.supervising
    && r'.supervisors != [] && Last(r').at == Returned
  }

  lemma {:induction false} RequestSpawns(r: Runner, minBackoff: nat, spawnOk: bool, signalOk: bool)
    requires Sound(r, minBackoff)
    requires RequestRestart(r, minBackoff, spawnOk, signalOk).0.attempts != r.attempts
    ensures var r' := RequestRestart(r, minBackoff, spawnOk, signalOk).0;
      && r'.attempts == r.attempts + 1
      && (Spawned(r, r') || LeftFailed(r, r'))
  {
    hide Allowed;
  }

  lemma {:induction false} StepSpawns(r: Runner, s: Step, minBackoff: nat)
    requires Sound(r, minBackoff) && Enabled(r, s) && Take(r, s, minBackoff).attempts != r.attempts
    ensures var r' := Take(r, s, minBackoff);
      && r'.attempts == r.attempts + 1
      && (Spawned(r, r') || LeftFailed(r, r'))
  {
    hide Sound, Respawn, Spawned, LeftFailed, Decided;
    if s.ReapStep? || s.WakeStep? {
      LastActs(r, s.i, minBackoff);
      if s.ReapStep? {
        DecidedTries(r.(alive := false), s.i, r.supervisors[s.i].at.code, minBackoff);
        RespawnSpawns(r, s.i, s.ok, minBackoff);
      } else {
        WakesDead(r, s.i, minBackoff);
        RespawnSpawns(r, s.i, s.ok, minBackoff);
        assert r.(restartRequested := false) == r.(alive := false, restartRequested := false);
      }
    }
  }

  lemma {:induction false} RespawnSpawns(r: Runner, i: nat, ok: bool, minBackoff: nat)
    requires Gone(r, i, minBackoff) && !r.supervisors[i].at.Returned?
    ensures var r' := Respawn(r.(alive := false, restartRequested := false), i, ok);
      r'.attempts == r.attempts + 1 && if ok then Spawned(r, r') else LeftFailed(r, r')
  {
    hide Allowed;
  }

  // A stop is seen through.

  /** Stopped, and its supervisor over or on the way out: a backoff has the token that ends it, and a process
      still to end has a kill on its way, or has had it. */
  ghost predicate Ending(r: Runner) {
    r.stopping && r.supervisors != [] && (Last(r).at.Returned? || Owes(r, Last(r).at))
  }

  lemma {:induction false} StopEnds(r: Runner, minBackoff: nat)
    requires Sound(r, minBackoff)
    ensures Ending(BeginStop(r))
  {
    hide Allowed;
  }

  lemma {:induction false} StepKeepsEnding(r: Runner, s: Step, minBackoff: nat)
    requires Sound(r, minBackoff) && Enabled(r, s) && Ending(r)
    ensures Ending(Take(r, s, minBackoff))
    ensures s.ReapStep? || s.WakeStep? ==> Over(Take(r, s, minBackoff))
  {
    hide Sound, Reap, Wake, EndBackoff, MarkRunning, KillIfStill, Ending, Over, Placed;
    match s
    case Exit(cmd, code) => AsideEnds(r, s, minBackoff);
    case WaitReturns(i) => LastActs(r, i, minBackoff); MoveEnds(r, s, minBackoff);
    case ReapStep(i, ok) => LastActs(r, i, minBackoff); RegionEnds(r, i, ok, minBackoff);
    case BackoffStep(i, byToken) => LastActs(r, i, minBackoff); MoveEnds(r, s, minBackoff);
    case WakeStep(i, ok) => LastActs(r, i, minBackoff); RegionEnds(r, i, ok, minBackoff);
    case ProbeAnswers(cmd) => AsideEnds(r, s, minBackoff);
    case KillStep(cmd) => KillEnds(r, cmd, minBackoff);
  }

  lemma {:induction false} AsideEnds(r: Runner, s: Step, minBackoff: nat)
    requires Enabled(r, s) && Ending(r) && (s.Exit? || s.ProbeAnswers?)
    ensures Ending(Take(r, s, minBackoff))
  {
  }

  lemma {:induction false} MoveEnds(r: Runner, s: Step, minBackoff: nat)
    requires Enabled(r, s) && Ending(r) && (s.WaitReturns? || s.BackoffStep?) && s.i + 1 == |r.supervisors|
    ensures Ending(Take(r, s, minBackoff))
  {
  }

  /** As in `KillOwes`: what is waited for is alive, so a kill that fires for it has hit it. */
  lemma {:induction false} KillEnds(r: Runner, cmd: nat, minBackoff: nat)
    requires Sound(r, minBackoff) && Enabled(r, KillStep(cmd)) && Ending(r)
    ensures Ending(KillIfStill(r, cmd))
  {
    hide Sound;
    AliveWaiting(r, minBackoff);
  }

  lemma {:induction false} RegionEnds(r: Runner, i: nat, ok: bool, minBackoff: nat)
    requires Ending(r) && i + 1 == |r.supervisors|
    ensures Over(Wake(r, i, ok)) && Ending(Wake(r, i, ok))
    ensures r.supervisors[i].at.Reaping? ==> Over(Reap(r, i, minBackoff, ok)) && Ending(Reap(r, i, minBackoff, ok))
  {
  }

  lemma {:induction false} ActKeepsEnding(b: Backend, a: Action, minBackoff: nat, id: nat)
    requires Good(b, minBackoff) && CanAct(b, a) && id < |b.runners| && Ending(b.runners[id])
    ensures var b' := Act(b, a, minBackoff).0;
      id < |b'.runners| && Ending(b'.runners[id]) && (ActsFor(a, id) ==> Over(b'.runners[id]))
  {
    hide Sound, Take, RequestRestart;
    RunnerSound(b, id, minBackoff);
    match a
    case Start(name, restart, spawnOk) =>
    case Stop(name) =>
    case Restart(name, spawnOk, signalOk) => if name in b.registry { Registered(b, name, minBackoff); }
    case Advance(i, step) => if i == id { StepKeepsEnding(b.runners[id], step, minBackoff); }
  }

  lemma {:induction false} EndsAfterStop(states: seq<Backend>, actions: seq<Action>, minBackoff: nat, i: nat, j: nat,
      id: nat)
    requires IsRun(states, actions, minBackoff) && i < j < |states|
    requires actions[i].Stop? && actions[i].name in states[i].registry && id == states[i].registry[actions[i].name]
    ensures id < |states[j].runners| && Ending(states[j].runners[id])
    ensures (exists k :: i < k < j && ActsFor(actions[k], id)) ==> Over(states[j].runners[id])
  {
    hide Act, CanAct, Good, Ending, ActsFor, Over;
    EveryRunIsGood(states, actions, minBackoff, i);
    if j == i + 1 {
      Registered(states[i], actions[i].name, minBackoff);
      StopActs(states[i], actions[i].name, minBackoff);
      StopEnds(states[i].runners[id], minBackoff);
    } else {
      EndsAfterStop(states, actions, minBackoff, i, j - 1, id);
      EveryRunIsGood(states, actions, minBackoff, j - 1);
      ActKeepsEnding(states[j-1], actions[j-1], minBackoff, id);
      if exists k :: i < k < j - 1 && ActsFor(actions[k], id) { StaysOver(states[j-1], actions[j-1], minBackoff, id); }
    }
  }

  lemma {:induction false} StopActs(b: Backend, name: string, minBackoff: nat)
    requires CanAct(b, Stop(name)) && name in b.registry
    ensures var b' := Act(b, Stop(name), minBackoff).0;
      var id := b.registry[name];
      id < |b'.runners| && b'.runners[id] == BeginStop(b.runners[id]) && name !in b'.registry
  {
  }

  /** After a `Stop` of a runner its supervisor has returned by its next region under the mutex, and until
      then the supervisor's next step can be taken, unless it waits for a process that is killed or
      about to be: so `Stop` returns, and `StopLeavesNothing` says what it leaves. */
  lemma {:induction false} StopIsServed(states: seq<Backend>, actions: seq<Action>, minBackoff: nat, i: nat, j: nat,
      id: nat, ok: bool)
    returns (s: Step)
    requires IsRun(states, actions, minBackoff) && i < j < |states|
    requires actions[i].Stop? && actions[i].name in states[i].registry && id == states[i].registry[actions[i].name]
    ensures id < |states[j].runners|
    ensures (exists k :: i < k < j && ActsFor(actions[k], id)) ==> Over(states[j].runners[id])
    ensures Over(states[j].runners[id]) || Doomed(states[j].runners[id]) || CanAct(states[j], Advance(id, s))
    ensures var n := |states[j].runners[id].supervisors| - 1;
      n >= 0 && s in {WaitReturns(n), ReapStep(n, ok), BackoffStep(n, true), WakeStep(n, ok)}
  {
    hide Act, Sound, Good, Enabled, Doomed;
    EveryRunIsGood(states, actions, minBackoff, j);
    EndsAfterStop(states, actions, minBackoff, i, j, id);
    RunnerSound(states[j], id, minBackoff);
    RegistryExists(states[j], minBackoff);
    s := EndingIsServed(states[j].runners[id], minBackoff, ok);
  }

  lemma {:induction false} EndingIsServed(r: Runner, minBackoff: nat, ok: bool) returns (s: Step)
    requires Sound(r, minBackoff) && Ending(r)
    ensures Over(r) || Enabled(r, s) || Doomed(r)
    ensures var i := |r.supervisors| - 1;
      i >= 0 && s in {WaitReturns(i), ReapStep(i, ok), BackoffStep(i, true), WakeStep(i, ok)}
  {
    hide Allowed;
    var i := |r.supervisors| - 1;
    match Last(r).at
    case Waiting => s := WaitReturns(i);
    case Reaping(code) => s := ReapStep(i, ok);
    case BackingOff(code) => s := BackoffStep(i, true);
    case Waking(code) => s := WakeStep(i, ok);
    case Returned => s := WaitReturns(i);
  }

  // What a probe's answer and the manifest's policy come to.

  ghost predicate Answers(a: Action, id: nat, cmd: nat) {
    a == Advance(id, ProbeAnswers(cmd))
  }

  /** A runner has reached running when its current incarnation's probe was answered, and running is what
      its status says only then; an answer for that incarnation, while it is alive, is enough. */
  lemma {:induction false} ReachedMeansAnswered(states: seq<Backend>, actions: seq<Action>, minBackoff: nat, i: nat,
      id: nat)
    requires IsRun(states, actions, minBackoff) && i < |states| && id < |states[i].runners|
    ensures var r := states[i].runners[id];
      && (r.status == Running ==> r.reachedRunning)
      && (r.reachedRunning ==> exists k :: 0 <= k < i && Answers(actions[k], id, r.cmd))
  {
    hide Act, CanAct, Good;
    if i > 0 {
      EveryRunIsGood(states, actions, minBackoff, i - 1);
      RunnersAppear(states[i-1], actions[i-1], minBackoff, id);
      if id < |states[i-1].runners| {
        ReachedMeansAnswered(states, actions, minBackoff, i - 1, id);
        ActReaches(states[i-1], actions[i-1], minBackoff, id);
        if states[i].runners[id].reachedRunning && Answers(actions[i-1], id, states[i].runners[id].cmd) {
          assert exists k :: 0 <= k < i && Answers(actions[k], id, states[i].runners[id].cmd);
        }
      }
    }
  }

  lemma {:induction false} RunnersAppear(b: Backend, a: Action, minBackoff: nat, id: nat)
    requires CanAct(b, a) && id < |Act(b, a, minBackoff).0.runners|
    ensures id >= |b.runners| ==>
      && a.Start? && id == |b.runners|
      && var r := Act(b, a, minBackoff).0.runners[id];
         !r.reachedRunning && r.status == Starting && r.policy == ParsePolicy(a.restart).0
  {
    hide Take, RequestRestart;
  }

  ghost predicate Reaches(r: Runner, r': Runner, answered: bool) {
    && r'.policy == r.policy
    && ((r.status == Running ==> r.reachedRunning) ==> r'.status == Running ==> r'.reachedRunning)
    && (r'.reachedRunning ==> (r.reachedRunning && r'.cmd == r.cmd) || answered)
    && (r.reachedRunning && r'.cmd == r.cmd ==> r'.reachedRunning)
  }

  lemma {:induction false} ActReaches(b: Backend, a: Action, minBackoff: nat, id: nat)
    requires Good(b, minBackoff) && CanAct(b, a) && id < |b.runners|
    ensures var (r, b') := (b.runners[id], Act(b, a, minBackoff).0);
      id < |b'.runners| && Reaches(r, b'.runners[id], Answers(a, id, b'.runners[id].cmd))
  {
    hide Sound, Take, RequestRestart, Reaches;
    RunnerSound(b, id, minBackoff);
    var r := b.runners[id];
    SelfReaches(r);
    match a
    case Start(name, restart, spawnOk) =>
    case Stop(name) =>
    case Restart(name, spawnOk, signalOk) => RequestReaches(r, minBackoff, spawnOk, signalOk);
    case Advance(i, step) => if i == id { StepReaches(r, step, minBackoff); }
  }

  lemma {:induction false} SelfReaches(r: Runner)
    ensures Reaches(r, r, false) && Reaches(r, r, true) && Reaches(r, BeginStop(r), false)
  {
  }

  lemma {:induction false} RequestReaches(r: Runner, minBackoff: nat, spawnOk: bool, signalOk: bool)
    requires Sound(r, minBackoff)
    ensures Reaches(r, RequestRestart(r, minBackoff, spawnOk, signalOk).0, false)
  {
    hide Tied;
  }

  lemma {:induction false} StepReaches(r: Runner, s: Step, minBackoff: nat)
    requires Sound(r, minBackoff) && Enabled(r, s)
    ensures var r' := Take(r, s, minBackoff); Reaches(r, r', s == ProbeAnswers(r'.cmd))
  {
    hide Sound, Reap, Wake, EndBackoff, MarkRunning, KillIfStill, Reaches, Placed;
    match s
    case ReapStep(i, ok) => ReapReaches(r, i, ok, minBackoff);
    case WakeStep(i, ok) => WakeReaches(r, i, ok, minBackoff);
    case Exit(cmd, code) => AsideReaches(r, s, minBackoff);
    case WaitReturns(i) => AsideReaches(r, s, minBackoff);
    case BackoffStep(i, byToken) => AsideReaches(r, s, minBackoff);
    case ProbeAnswers(cmd) => ProbeReaches(r, cmd);
    case KillStep(cmd) => AsideReaches(r, s, minBackoff);
    ReachesMore(r, Take(r, s, minBackoff), s == ProbeAnswers(Take(r, s, minBackoff).cmd));
  }

  lemma {:induction false} ReachesMore(r: Runner, r': Runner, answered: bool)
    ensures Reaches(r, r', false) ==> Reaches(r, r', answered)
  {
  }

  lemma {:induction false} ProbeReaches(r: Runner, cmd: nat)
    ensures var r' := MarkRunning(r, cmd); Reaches(r, r', cmd == r'.cmd)
  {
  }

  lemma {:induction false} AsideReaches(r: Runner, s: Step, minBackoff: nat)
    requires Enabled(r, s) && (s.Exit? || s.WaitReturns? || s.BackoffStep? || s.KillStep?)
    ensures Reaches(r, Take(r, s, minBackoff), false)
  {
  }

  lemma {:induction false} ReapReaches(r: Runner, i: nat, ok: bool, minBackoff: nat)
    requires Sound(r, minBackoff) && Enabled(r, ReapStep(i, ok))
    ensures Reaches(r, Reap(r, i, minBackoff, ok), false)
  {
    hide Sound, Respawn, Decided;
    LastActs(r, i, minBackoff);
    RespawnReaches(r.(alive := false, restartRequested := false), r, i, ok, minBackoff);
    DecidedReaches(r, i, r.supervisors[i].at.code, minBackoff);
  }

  lemma {:induction false} WakeReaches(r: Runner, i: nat, ok: bool, minBackoff: nat)
    requires Sound(r, minBackoff) && Enabled(r, WakeStep(i, ok))
    ensures Reaches(r, Wake(r, i, ok), false)
  {
    hide Sound, Respawn;
    LastActs(r, i, minBackoff);
    RespawnReaches(r.(restartRequested := false), r, i, ok, minBackoff);
  }

  lemma {:induction false} RespawnReaches(r: Runner, was: Runner, i: nat, ok: bool, minBackoff: nat)
    requires Gone(was, i, minBackoff) && r == was.(alive := r.alive, restartRequested := false)
    ensures Reaches(was, Respawn(r, i, ok), false)
  {
    hide Tied;
  }

  lemma {:induction false} DecidedReaches(r: Runner, i: nat, code: int, minBackoff: nat)
    requires i < |r.supervisors|
    ensures Reaches(r, Decided(r.(alive := false), i, code, minBackoff), false)
  {
    hide Allowed;
  }

  /** And an answer for the current incarnation, while it is alive, makes it so until another is spawned. */
  lemma {:induction false} AnsweredReaches(states: seq<Backend>, actions: seq<Action>, minBackoff: nat, i: nat, j: nat,
      id: nat)
    requires IsRun(states, actions, minBackoff) && i < j < |states| && id < |states[i].runners|
    requires states[i].runners[id].alive && Answers(actions[i], id, states[i].runners[id].cmd)
    ensures id < |states[j].runners| && states[j].runners[id].cmd >= states[i].runners[id].cmd
    ensures states[j].runners[id].cmd == states[i].runners[id].cmd ==> states[j].runners[id].reachedRunning
  {
    hide Act, CanAct, Good, Answers;
    if j == i + 1 {
      EveryRunIsGood(states, actions, minBackoff, i);
      ReachedMeansAnswered(states, actions, minBackoff, i, id);
      AnswerReaches(states[i], actions[i], minBackoff, id);
    } else {
      AnsweredReaches(states, actions, minBackoff, i, j - 1, id);
      EveryRunIsGood(states, actions, minBackoff, j - 1);
      EveryRunIsGood(states, actions, minBackoff, j);
      ActReaches(states[j-1], actions[j-1], minBackoff, id);
      ActGrows(states[j-1], actions[j-1], minBackoff, id);
      RunnerSound(states[j-1], id, minBackoff);
      RunnerSound(states[j], id, minBackoff);
    }
  }

  lemma {:induction false} AnswerReaches(b: Backend, a: Action, minBackoff: nat, id: nat)
    requires Good(b, minBackoff) && CanAct(b, a) && id < |b.runners|
    requires b.runners[id].alive && Answers(a, id, b.runners[id].cmd)
    requires b.runners[id].status == Running ==> b.runners[id].reachedRunning
    ensures var b' := Act(b, a, minBackoff).0;
      id < |b'.runners| && b'.runners[id].cmd == b.runners[id].cmd && b'.runners[id].reachedRunning
  {
    RunnerSound(b, id, minBackoff);
  }

  /** A `Start` under a free name is refused exactly when its policy is none of the four that are known;
      otherwise, if the process starts, the runner has that policy for good. */
  lemma {:induction false} PolicyIsAsGiven(states: seq<Backend>, actions: seq<Action>, minBackoff: nat, i: nat, j: nat)
    requires IsRun(states, actions, minBackoff) && i < j < |states|
    requires actions[i].Start? && actions[i].name !in states[i].registry
    ensures var (a, id) := (actions[i], |states[i].runners|);
      && (Act(states[i], a, minBackoff).1 == BadPolicy <==> a.restart !in ["", "on-failure", "always", "never"])
      && (Act(states[i], a, minBackoff).1 == Ok ==>
            && a.spawnOk && id < |states[j].runners|
            && states[j].runners[id].policy ==
               if a.restart == "always" then Always else if a.restart == "never" then Never else OnFailure)
  {
    hide Act, Good, CanAct;
    RunAct(states, actions, minBackoff, i);
    StartAnswers(states[i], actions[i], minBackoff);
    if Act(states[i], actions[i], minBackoff).1 == Ok { PolicyStays(states, actions, minBackoff, i + 1, j, |states[i].runners|); }
  }

  lemma {:induction false} RunAct(states: seq<Backend>, actions: seq<Action>, minBackoff: nat, i: nat)
    requires IsRun(states, actions, minBackoff) && i < |actions|
    ensures i + 1 < |states| && CanAct(states[i], actions[i]) && states[i + 1] == Act(states[i], actions[i], minBackoff).0
  {
  }

  lemma {:induction false} StartAnswers(b: Backend, a: Action, minBackoff: nat)
    requires CanAct(b, a) && a.Start? && a.name !in b.registry
    ensures var ((b', answer), id) := (Act(b, a, minBackoff), |b.runners|);
      && (answer == BadPolicy <==> a.restart !in ["", "on-failure", "always", "never"])
      && (answer == Ok ==>
            && a.spawnOk && id < |b'.runners|
            && b'.runners[id].policy ==
               if a.restart == "always" then Always else if a.restart == "never" then Never else OnFailure)
  {
    hide CanAct;
  }

  lemma {:induction false} PolicyStays(states: seq<Backend>, actions: seq<Action>, minBackoff: nat, i: nat, j: nat, id: nat)
    requires IsRun(states, actions, minBackoff) && i <= j < |states| && id < |states[i].runners|
    ensures id < |states[j].runners| && states[j].runners[id].policy == states[i].runners[id].policy
  {
    hide Act, Good, CanAct, IsRun;
    if i < j {
      RunLength(states, actions, minBackoff);
      var k := j - 1;
      PolicyStays(states, actions, minBackoff, i, k, id);
      RunAct(states, actions, minBackoff, k);
      EveryRunIsGood(states, actions, minBackoff, k);
      ActKeepsPolicy(states[k], actions[k], minBackoff, id);
      assert states[j] == Act(states[k], actions[k], minBackoff).0;
    }
  }

  lemma {:induction false} RunLength(states: seq<Backend>, actions: seq<Action>, minBackoff: nat)
    requires IsRun(states, actions, minBackoff)
    ensures |states| == |actions| + 1
  {
  }

  lemma {:induction false} ActKeepsPolicy(b: Backend, a: Action, minBackoff: nat, id: nat)
    requires Good(b, minBackoff) && CanAct(b, a) && id < |b.runners|
    ensures id < |Act(b, a, minBackoff).0.runners| && Act(b, a, minBackoff).0.runners[id].policy == b.runners[id].policy
  {
    hide Act, Good, CanAct;
    ActReaches(b, a, minBackoff, id);
  }

  /** A delayed kill hits, if anything, the very incarnation it was set for, and only while that one is
      current: no incarnation spawned after it was set. */
  lemma {:induction false} DelayedKillHitsItsOwn(states: seq<Backend>, actions: seq<Action>, minBackoff: nat, i: nat,
      j: nat, id: nat, cmd: nat)
    requires IsRun(states, actions, minBackoff) && i <= j < |actions| && id < |states[i].runners|
    requires cmd in states[i].runners[id].kills && actions[j] == Advance(id, KillStep(cmd))
    ensures id < |states[j].runners|
    ensures var r, r' := states[j].runners[id], states[j+1].runners[id];
      && r'.processes == r.processes
      && (r'.killed == r.killed || (r'.killed == r.killed + [cmd] && cmd == r.cmd && r.alive && cmd < |states[i].runners[id].processes|))
  {
    hide Act, CanAct, Good, Sound;
    EveryRunIsGood(states, actions, minBackoff, i);
    RunnerSound(states[i], id, minBackoff);
    NothingSpawnedAfterStop(states, actions, minBackoff, i, j, id);
    KillsExist(states[i].runners[id], cmd, minBackoff);
    KillEffect(states[j], id, cmd, minBackoff);
  }

  lemma {:induction false} KillsExist(r: Runner, cmd: nat, minBackoff: nat)
    requires Sound(r, minBackoff) && cmd in r.kills
    ensures cmd < |r.processes|
  {
  }

  lemma {:induction false} KillEffect(b: Backend, id: nat, cmd: nat, minBackoff: nat)
    requires CanAct(b, Advance(id, KillStep(cmd))) && id < |b.runners|
    ensures var (r, b') := (b.runners[id], Act(b, Advance(id, KillStep(cmd)), minBackoff).0);
      && id < |b'.runners| && b'.runners[id].processes == r.processes
      && (b'.runners[id].killed == r.killed || (b'.runners[id].killed == r.killed + [cmd] && cmd == r.cmd && r.alive))
  {
  }

  // The code, updating its fields in place, against the regions above.

  lemma {:induction false} NoneStarted(policy: Policy)
    ensures Fresh(policy).processes == []
  {
  }

  lemma {:induction false} RespawnKeepsBackoff(r: Runner, i: nat, ok: bool)
    requires i < |r.supervisors|
    ensures var r' := Respawn(r, i, ok);
      |r'.supervisors| == |r.supervisors| && r'.supervisors[i].backoff == r.supervisors[i].backoff
  {
  }

  class RunnerProc {
    const policy: Policy
    var cmd: nat
    var alive: bool
    var status: Status
    var restarts: nat
    var reachedRunning: bool
    var restartRequested: bool
    var stopping: bool
    var supervising: bool
    var wake: bool
    ghost var processes: seq<Process>
    ghost var supervisors: seq<Goroutine>
    ghost var kills: multiset<nat>
    ghost var killed: seq<nat>
    ghost var attempts: nat

    constructor (policy: Policy)
      ensures View() == Fresh(policy)
    {
      this.policy := policy;
      cmd, alive, status, restarts, reachedRunning := 0, false, Stopped, 0, false;
      restartRequested, stopping, supervising, wake := false, false, false, false;
      processes, supervisors, kills, killed, attempts := [], [], multiset{}, [], 0;
    }

    ghost function View(): Runner
      reads this
    {
      Runner(policy, cmd, alive, status, restarts, reachedRunning, restartRequested, stopping, supervising, wake,
             processes, supervisors, kills, killed, attempts)
    }

    /** `handle` is the process the operating system hands out, if it starts one. */
    method Launch(handle: nat, ok: bool)
      requires handle == |processes|
      modifies this
      ensures View() == Spawn(old(View()), ok)
    {
      if ok {
        cmd, alive, status, reachedRunning, processes, attempts :=
          handle, true, Starting, false, processes + [Live], attempts + 1;
      } else {
        attempts := attempts + 1;
      }
    }

    method HandOver(minBackoff: nat)
      modifies this
      ensures View() == SuperviseFrom(old(View()), minBackoff)
    {
      supervising := true;
      supervisors := supervisors + [Goroutine(cmd, Waiting, minBackoff)];
    }

    ghost method Place(i: nat, at: Place)
      requires i < |supervisors|
      modifies this`supervisors
      ensures View() == Placed(old(View()), i, at)
    {
      supervisors := supervisors[i := supervisors[i].(at := at)];
    }

    method LaunchAgain(ghost i: nat, handle: nat, ok: bool)
      requires i < |supervisors| && handle == |processes|
      modifies this
      ensures View() == Respawn(old(View()), i, ok)
    {
      restarts := restarts + 1;
      Launch(handle, ok);
      AfterLaunch(i, ok);
    }

    method AfterLaunch(ghost i: nat, ok: bool)
      requires i < |supervisors|
      modifies this
      ensures View() == Launched(old(View()), i, ok)
    {
      if ok {
        supervisors := supervisors[i := Goroutine(cmd, Waiting, supervisors[i].backoff)];
      } else {
        status, supervising, supervisors := Failed, false, supervisors[i := supervisors[i].(at := Returned)];
      }
    }

    /** `supervise` from the return of `Wait` to its next unlock. */
    method AfterWait(ghost i: nat, code: int, backoff: nat, minBackoff: nat, handle: nat, ok: bool)
      returns (next: nat)
      requires i < |supervisors| && supervisors[i].at == Reaping(code) && supervisors[i].backoff == backoff
      requires handle == |processes|
      modifies this
      ensures View() == Reap(old(View()), i, minBackoff, ok)
      ensures supervisors[i].backoff == next
    {
      hide Respawn, Allowed;
      next := backoff;
      alive := false;
      if stopping {
        status, supervisors := Stopped, supervisors[i := supervisors[i].(at := Returned)];
      } else if restartRequested {
        restartRequested := false;
        RespawnKeepsBackoff(View(), i, ok);
        LaunchAgain(i, handle, ok);
      } else {
        next := Decide(i, code, backoff, minBackoff);
      }
    }

    /** Neither stopped nor asked for again: the policy and the exit code say. */
    method Decide(ghost i: nat, code: int, backoff: nat, minBackoff: nat) returns (next: nat)
      requires i < |supervisors| && supervisors[i].at == Reaping(code) && supervisors[i].backoff == backoff
      modifies this
      ensures View() == Decided(old(View()), i, code, minBackoff)
      ensures supervisors[i].backoff == next
    {
      next := backoff;
      var crashed := code != 0;
      var again := policy == Always || (crashed && policy == OnFailure);
      if code == BAD_CONFIG { again := false; }
      if again {
        if reachedRunning { next := minBackoff; }
        status, supervisors := Restarting, supervisors[i := Goroutine(supervisors[i].cmd, BackingOff(code), next)];
      } else {
        status, supervising, supervisors :=
          if crashed then Failed else Stopped, false, supervisors[i := supervisors[i].(at := Returned)];
      }
    }

    /** The timer or a token ends the wait; outside the mutex. */
    method EndWait(ghost i: nat, backoff: nat, byToken: bool) returns (next: nat)
      requires i < |supervisors| && supervisors[i].at.BackingOff? && supervisors[i].backoff == backoff
      modifies this
      ensures View() == EndBackoff(old(View()), i, byToken)
      ensures supervisors[i].backoff == next
    {
      next := backoff;
      if byToken { wake := false; }
      if next < BACKOFF_CAP_MS { next := next * 2; }
      supervisors := supervisors[i := Goroutine(supervisors[i].cmd, Waking(supervisors[i].at.code), next)];
    }

    method AfterBackoff(ghost i: nat, handle: nat, ok: bool)
      requires i < |supervisors| && handle == |processes|
      modifies this
      ensures View() == Wake(old(View()), i, ok)
    {
      if stopping {
        status := Stopped;
        Place(i, Returned);
        return;
      }
      restartRequested := false;
      LaunchAgain(i, handle, ok);
    }

    method Answered(cmd: nat)
      modifies this
      ensures View() == MarkRunning(old(View()), cmd)
    {
      if this.cmd == cmd && alive && status == Starting {
        status := Running;
        reachedRunning := true;
      }
    }

    method AskStop()
      modifies this
      ensures View() == BeginStop(old(View()))
    {
      stopping := true;
      wake := true;
      kills := kills + multiset{cmd};
    }

    method AskRestart(handle: nat, minBackoff: nat, spawnOk: bool, signalOk: bool) returns (reply: Reply)
      requires handle == |processes|
      modifies this
      ensures (View(), reply) == RequestRestart(old(View()), minBackoff, spawnOk, signalOk)
    {
      if !supervising {
        Launch(handle, spawnOk);
        if !spawnOk {
          status := Failed;
          return SpawnFailed;
        }
        restarts := restarts + 1;
        HandOver(minBackoff);
        return Done;
      }
      restartRequested := true;
      if alive {
        if !signalOk { return SignalFailed; }
        kills := kills + multiset{cmd};
        return Done;
      }
      wake := true;
      return Done;
    }

    method FireKill(cmd: nat)
      modifies this
      ensures View() == KillIfStill(old(View()), cmd)
    {
      kills := kills - multiset{cmd};
      if alive && this.cmd == cmd { killed := killed + [cmd]; }
    }
  }

  class ProcessBackend {
    var runners: map<string, RunnerProc>
    const minBackoff: nat
    ghost var all: seq<RunnerProc>
    ghost var registry: map<string, nat>

    constructor (minBackoff: nat)
      ensures Valid() && View() == Backend(map[], [])
    {
      this.minBackoff := minBackoff;
      runners, all, registry := map[], [], map[];
    }

    ghost predicate Valid()
      reads this
    {
      && runners.Keys == registry.Keys
      && (forall n :: n in registry ==> registry[n] < |all| && runners[n] == all[registry[n]])
      && (forall i, j :: 0 <= i < j < |all| ==> all[i] != all[j])
    }

    ghost function View(): Backend
      reads this, all
    {
      Backend(registry, seq(|all|, i requires 0 <= i < |all| reads this, all => all[i].View()))
    }

    method Start(name: string, restart: string, spawnOk: bool) returns (answer: Answer)
      requires Valid()
      modifies this
      ensures Valid() && (View(), answer) == Act(old(View()), Action.Start(name, restart, spawnOk), minBackoff)
    {
      if name in runners { return Taken; }
      var (policy, known) := ParsePolicy(restart);
      if !known { return BadPolicy; }
      hide Spawn, SuperviseFrom, Fresh;
      NoneStarted(policy);
      var rp := new RunnerProc(policy);
      rp.Launch(0, spawnOk);
      if !spawnOk { return Refused(SpawnFailed); }
      Enrol(name, rp);
      return Ok;
    }

    method Enrol(name: string, rp: RunnerProc)
      requires Valid() && name !in runners && rp !in all
      modifies this, rp
      ensures Valid()
      ensures View() == Backend(old(registry)[name := |old(all)|],
                                old(View()).runners + [SuperviseFrom(old(rp.View()), minBackoff)])
    {
      runners := runners[name := rp];
      registry, all := registry[name := |all|], all + [rp];
      rp.HandOver(minBackoff);
      assert View().runners == old(View()).runners + [rp.View()];
    }

    /** `Stop` up to its unlock: the wait for the supervisor follows. */
    method Stop(name: string) returns (answer: Answer)
      requires Valid()
      modifies this, all
      ensures Valid() && (View(), answer) == Act(old(View()), Action.Stop(name), minBackoff)
    {
      if name !in runners { return Unknown; }
      var rp := runners[name];
      ghost var id := registry[name];
      runners := runners - {name};
      registry := registry - {name};
      rp.AskStop();
      assert View().runners == old(View()).runners[id := rp.View()];
      return Ok;
    }

    method Restart(name: string, handle: nat, spawnOk: bool, signalOk: bool) returns (answer: Answer)
      requires Valid() && (name in runners ==> handle == |runners[name].processes|)
      modifies all
      ensures Valid() && (View(), answer) == Act(old(View()), Action.Restart(name, spawnOk, signalOk), minBackoff)
    {
      if name !in runners { return Unknown; }
      var rp := runners[name];
      ghost var id := registry[name];
      var reply := rp.AskRestart(handle, minBackoff, spawnOk, signalOk);
      assert View().runners == old(View()).runners[id := rp.View()];
      return if reply == Done then Ok else Refused(reply);
    }
  }
}
