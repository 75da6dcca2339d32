/** The request objects run the transition system: whatever handler runs next, the code does the step of
    `Exchange.Apply`, in every state. What is proved of all runs is true of the objects, and so is the
    invariant until the first hazard. */
module Driver {
  import opened Requests
  import opened Exchange
  import opened ExchangeInvariant
  import opened StepInvariant
  import opened CommandManager
  import opened ExchangeTheorems
  import opened Flushing

  /** Power-on. */
  method Start(ports: nat) returns (m: Manager)
    ensures fresh(m) && m.Valid() && m.View() == Initial(ports) && Inv(m.View())
  {
    m := new Manager(ports);
    InitialInv(ports);
  }

  /** Runs the handler of one step. `aborting` and `flushesEls` tell a resumed flush whether it was
      suspended on an ABTS or an ELS. */
  method Handle(m: Manager, t: Step, aborting: bool, flushesEls: bool)
    requires m.Valid() && Enabled(m.View(), t)
    requires t.FlushResumes? ==>
      var w := m.View().reqs[t.x].flushWait; aborting == w.FlushAbts? && flushesEls == w.FlushEls?
    modifies m, m.cmds[..]
    ensures m.Valid() && m.View() == Apply(old(m.View()), t)
    ensures old(Inv(m.View()) && !Hazard(m.View(), t)) ==> Inv(m.View())
  {
    if Inv(m.View()) && !Hazard(m.View(), t) { StepKeeps(m.View(), t); }
    match t {
      case Queue(port, c, e) => m.QueueCommand(port, c, e);
      case GoodCqe(x, e) => m.GoodCqe(x, e);
      case ErrorCqe(x, e) => m.ErrorCqe(x, e);
      case WarningCqe(x, recTov, e) => m.WarningCqe(x, recTov, e);
      case CleanupCqe(x, e) => m.CleanupCqe(x, e);
      case AbtsCqe(x, reply, e) => m.AbtsCqe(x, reply, e);
      case TimerFires(x, e) => m.CmdTimeout(x, e);
      case AbtsTmoResumes(x, e) => m.ResumeAbtsTimeout(x, e);
      case ElsTmoResumes(x, e) => m.ResumeElsTimeout(x, e);
      case RrqRuns(x, e) => m.SendRrq(x, e);
      case FlushVisits(x, port, e) => var _ := m.FlushVisit(x, port, e);
      case FlushResumes(x, e) => if flushesEls { m.ResumeFlushEls(x, e); } else { m.ResumeFlush(x, aborting, e); }
      case EhStarts(c) => m.EhStarts(c);
      case EhAborts(x, e) => m.EhAborts(x, e);
      case EhLeaves(x) => m.EhLeaves(x);
      case SendAdisc(port, e) => if e.memory { var _ := m.InitiateEls(port, CbArg(Adisc, None), e); }
    }
  }

  /** qedf_flush_active_ios from request `from` on, while no other flush is under way: a run of visits up to
      the end or to the first sleep. Every request behind it that was busy when visited and not spared has
      let go of its command, unless the walk waits on it. */
  method FlushPort(m: Manager, port: nat, from: nat, es: seq<Env>) returns (at: nat, waits: bool)
    requires m.Valid() && Inv(m.View()) && Awake(m.View()) && from <= NUM_TASKS && |es| == NUM_TASKS
    modifies m, m.cmds[..]
    ensures m.Valid() && Inv(m.View()) && from <= at <= NUM_TASKS
    ensures var ts := Visits(port, from, at, es); Admissible(old(m.View()), ts) && m.View() == After(old(m.View()), ts)
    ensures if waits then from < at && !m.View().reqs[at - 1].flushWait.NoFlush? else at == NUM_TASKS && Awake(m.View())
    ensures forall i :: from <= i < at ==> Flushed(old(m.View()), port, from, at, i, es)
  {
    ghost var s := m.View();
    at, waits := m.FlushActiveIos(port, from, es);
    Walked(s, port, from, at, es);
  }
}
