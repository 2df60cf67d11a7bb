/** The driver of one fleet: what it answers, the locks and heartbeats it keeps, and the calls made of it. */
module RollDriver {
  import opened Common
  import opened GreenGate
  import opened RollTrace

  /**
   * What the driver answers for one agent. `busy(0)` is the first reading and `busy(k)` the k-th poll while
   * waiting, taken if the clock then shows `waited(k - 1)`; the probes and their clock are those of the
   * verify step. The clocks reach their budgets by `waitBound` and `verifyBound`.
   */
  datatype Env = Env(
    canonical: string,
    current: Option<string>,
    alreadyCanonical: seq<string>,
    genuineDelta: seq<string>,
    busy: nat -> bool,
    waited: nat -> int,
    waitBound: nat,
    probe: nat -> Option<Health>,
    elapsed: nat -> int,
    verifyBound: nat,
    prompt: bool,
    pin: Option<string>,
    records: bool)

  /** What a driver keeps: the calls made of it, the locks held and the heartbeats running. */
  datatype Books = Books(trace: seq<Call>, locks: set<string>, hearts: set<string>)

  class Driver {
    var locks: set<string>
    var hearts: set<string>
    var trace: seq<Call>

    ghost function Kept(): Books
      reads this
    {
      Books(trace, locks, hearts)
    }

    /** A driver of this process: no heartbeat runs yet, but locks may be left over. */
    constructor (locks: set<string>)
      ensures this.locks == locks && hearts == {} && trace == []
    {
      this.locks, hearts, trace := locks, {}, [];
    }

    method ResolveWorkspace(agent: string)
      modifies `trace
      ensures trace == old(trace) + [Call(agent, Verb.ResolveWorkspace)]
    {
      trace := trace + [Call(agent, Verb.ResolveWorkspace)];
    }

    method CanonicalBranch(agent: string, env: Env) returns (branch: string)
      modifies `trace
      ensures trace == old(trace) + [Call(agent, Verb.CanonicalBranch)] && branch == env.canonical
    {
      trace := trace + [Call(agent, Verb.CanonicalBranch)];
      branch := env.canonical;
    }

    method CurrentBranch(agent: string, env: Env) returns (branch: Option<string>)
      modifies `trace
      ensures trace == old(trace) + [Call(agent, Verb.CurrentBranch)] && branch == env.current
    {
      trace := trace + [Call(agent, Verb.CurrentBranch)];
      branch := env.current;
    }

    method ClassifyDirty(agent: string, env: Env) returns (alreadyCanonical: seq<string>, genuineDelta: seq<string>)
      modifies `trace
      ensures trace == old(trace) + [Call(agent, Verb.ClassifyDirty)]
      ensures alreadyCanonical == env.alreadyCanonical && genuineDelta == env.genuineDelta
    {
      trace := trace + [Call(agent, Verb.ClassifyDirty)];
      alreadyCanonical, genuineDelta := env.alreadyCanonical, env.genuineDelta;
    }

    method AutoResolve(agent: string)
      modifies `trace
      ensures trace == old(trace) + [Call(agent, Verb.AutoResolve)]
    {
      trace := trace + [Call(agent, Verb.AutoResolve)];
    }

    /** The `k`-th busy reading of this turn. */
    method IsBusy(agent: string, env: Env, k: nat) returns (busy: bool)
      modifies `trace
      ensures trace == old(trace) + [Call(agent, Verb.IsBusy)] && busy == env.busy(k)
    {
      trace := trace + [Call(agent, Verb.IsBusy)];
      busy := env.busy(k);
    }

    method AcquireLock(agent: string)
      modifies `trace, `locks
      ensures trace == old(trace) + [Call(agent, Verb.AcquireLock)] && locks == old(locks) + {agent}
    {
      trace, locks := trace + [Call(agent, Verb.AcquireLock)], locks + {agent};
    }

    method StartHeartbeat(agent: string)
      modifies `trace, `hearts
      ensures trace == old(trace) + [Call(agent, Verb.StartHeartbeat)] && hearts == old(hearts) + {agent}
    {
      trace, hearts := trace + [Call(agent, Verb.StartHeartbeat)], hearts + {agent};
    }

    method Upgrade(agent: string)
      modifies `trace
      ensures trace == old(trace) + [Call(agent, Verb.Upgrade)]
    {
      trace := trace + [Call(agent, Verb.Upgrade)];
    }

    method Restart(agent: string)
      modifies `trace
      ensures trace == old(trace) + [Call(agent, Verb.Restart)]
    {
      trace := trace + [Call(agent, Verb.Restart)];
    }

    method Verify(agent: string, target: string, timeoutMs: int, env: Env) returns (green: GreenResult, probes: nat)
      requires env.elapsed(env.verifyBound) >= timeoutMs
      modifies `trace
      ensures trace == old(trace) + [Call(agent, Verb.VerifyStep)]
      ensures probes >= 1 && Reports(Equals(target), env.probe, probes, green)
    {
      trace := trace + [Call(agent, Verb.VerifyStep)];
      green, probes := VerifyGreen(target, timeoutMs, env.probe, env.elapsed, env.verifyBound);
    }

    /** Whether the pane shows a launch prompt; a failed read is no evidence. */
    method CapturePane(agent: string, env: Env) returns (prompt: bool)
      modifies `trace
      ensures trace == old(trace) + [Call(agent, Verb.CapturePane)] && prompt == env.prompt
    {
      trace := trace + [Call(agent, Verb.CapturePane)];
      prompt := env.prompt;
    }

    method ReadPin(agent: string, env: Env) returns (pin: Option<string>)
      modifies `trace
      ensures trace == old(trace) + [Call(agent, Verb.ReadPin)] && pin == env.pin
    {
      trace := trace + [Call(agent, Verb.ReadPin)];
      pin := env.pin;
    }

    method ListModified(agent: string)
      modifies `trace
      ensures trace == old(trace) + [Call(agent, Verb.ListModified)]
    {
      trace := trace + [Call(agent, Verb.ListModified)];
    }

    method StopHeartbeat(agent: string)
      modifies `trace, `hearts
      ensures trace == old(trace) + [Call(agent, Verb.StopHeartbeat)] && hearts == old(hearts) - {agent}
    {
      trace, hearts := trace + [Call(agent, Verb.StopHeartbeat)], hearts - {agent};
    }

    method ReleaseLock(agent: string)
      modifies `trace, `locks
      ensures trace == old(trace) + [Call(agent, Verb.ReleaseLock)] && locks == old(locks) - {agent}
    {
      trace, locks := trace + [Call(agent, Verb.ReleaseLock)], locks - {agent};
    }

    /** Best-effort: whether the write succeeds changes nothing. */
    method RecordVersion(agent: string)
      modifies `trace
      ensures trace == old(trace) + [Call(agent, Verb.RecordVersion)]
    {
      trace := trace + [Call(agent, Verb.RecordVersion)];
    }
  }
}
