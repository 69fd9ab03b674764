/** The invariant over whole runs, and what follows from it. */
module ProtocolRuns {
  import opened Wrappers
  import opened Configurations
  import opened CleanupLedgers
  import opened CredentialProtocol
  import opened ProtocolInvariant
  import opened ProtocolSteps
  import opened ProtocolCommit
  import opened ProtocolAdvance
  import opened ProtocolActions
  import opened ProtocolRuntimes
  import opened ProtocolRecovery

  lemma InitialOk(strict: bool)
    ensures Inv(Initial, strict)
  {}

  lemma StepShape(s: System, a: Action)
    ensures Step(s, a) ==
            if a.Crash? then DoCrash(s)
            else if s.boot.Recovering? then
              if a.Recover? then DoRecover(s, s.boot.owner, s.boot.stage, a.pick, a.fault)
              else if a.SkipRecovery? then s.(boot := NextRecovery(s, s.boot.owner))
              else s
            else
              match a
              case Install(d, now) => DoInstall(s, d, now)
              case Recommit(d, now) => DoRecommit(s, d, now)
              case Begin(o, e, p) => DoBegin(s, o, e, p)
              case Advance(o, pick, f) => DoAdvance(s, o, pick, f)
              case GiveUp(o) => DoGiveUp(s, o)
              case Mount(o, up) => DoMount(s, o, up)
              case Remount(o, idle) => DoRemount(s, o, idle)
              case Drain(n) => DoDrain(s, n)
              case Maintain(id, pick, f) => DoMaintain(s, id, pick, f)
              case DropTask(id) => s.(tasks := s.tasks - {id})
              case Close(o) => s.(closed := s.closed + {o})
              case _ => s
  {
    hide DoCrash, DoRecover, DoInstall, DoRecommit, DoBegin, DoAdvance, DoGiveUp, DoMount, DoRemount, DoDrain,
        DoMaintain, NextRecovery;
  }

  lemma SoundFacts(s: System, a: Action, strict: bool)
    requires Sound(s, a, strict)
    ensures !LosesCommit(s, a) && (strict ==> !Overlaps(s, a))
  {}

  /** One action of anybody, under the hypotheses of the run. */
  lemma StepKeeps(s: System, strict: bool, a: Action)
    requires Inv(s, strict) && Sound(s, a, strict)
    ensures Inv(Step(s, a), strict)
  {
    hide *;
    StepShape(s, a);
    SoundFacts(s, a, strict);
    if a.Crash? {
      CrashKeeps(s, strict);
    } else if s.boot.Recovering? {
      if a.Recover? {
        RecoverKeeps(s, strict, a.pick, a.fault);
      } else if a.SkipRecovery? {
        NextKeeps(s, strict, s.boot.owner);
      }
    } else {
      match a
      case Install(d, now) => InstallKeeps(s, strict, d, now);
      case Recommit(d, now) => RecommitKeeps(s, strict, d, now);
      case Begin(o, e, p) => BeginKeeps(s, strict, o, e, p);
      case Advance(o, pick, f) => AdvanceKeeps(s, strict, o, pick, f);
      case GiveUp(o) => GiveUpKeeps(s, strict, o);
      case Mount(o, up) => MountKeeps(s, strict, o, up);
      case Remount(o, idle) => RemountKeeps(s, strict, o, idle);
      case Drain(n) => DrainKeeps(s, strict, n);
      case Maintain(id, pick, f) => MaintainKeeps(s, strict, id, pick, f);
      case DropTask(id) => TaskEnds(s, strict, id);
      case Close(o) => CloseKeeps(s, strict, o);
      case Crash =>
      case Recover(_, _) =>
      case SkipRecovery =>
    }
  }

  /** Every state of every sound run satisfies the invariant. */
  lemma {:induction false} RunKeeps(s: System, strict: bool, actions: seq<Action>)
    requires Inv(s, strict) && SoundRun(s, actions, strict)
    ensures Inv(Exec(s, actions), strict)
    decreases |actions|
  {
    hide Inv, Step, Sound;
    if actions != [] {
      StepKeeps(s, strict, actions[0]);
      RunKeeps(Step(s, actions[0]), strict, actions[1..]);
    }
  }
}
