/** ExecutionManager and DebugMethodHandler: the entry points of the bundler, each as one uninterrupted call. */
module ExecutionManagers {
  import opened Common
  import opened Mempool
  import opened Bundle
  import Events
  import Rep = Reputation

  /** `attemptBundle`: below the configured mempool size nothing is sent unless forced. */
  function Attempt(w: Events.World, maxMempoolSize: nat, force: bool, answers: Answers, config: Config): Ended {
    if !force && |w.pool.entries| < maxMempoolSize then Ended(w, false)
    else
      var next := NextBundle(w, answers, config);
      if next.threw || maxMempoolSize != 0 then next
      else Ended(Events.Poll(next.world, answers.laterHead, answers.laterEvents), false)
  }

  /** `sendUserOperation`, given what its two validations came to. */
  function Submission(w: Events.World, maxMempoolSize: nat, validated: Option<Request>, answers: Answers, config: Config): Ended {
    if validated.None? then Ended(w, true)
    else
      var added := AddUserOp(w.pool, w.rep, validated.value);
      var after := w.(pool := added.pool, rep := added.rep);
      if added.verdict.Fail? then Ended(after, true) else Attempt(after, maxMempoolSize, false, answers, config)
  }

  /** `sendBundleNow`: a forced attempt and, once it has returned, one more scan whatever the size setting. */
  function BundleNow(w: Events.World, maxMempoolSize: nat, answers: Answers, config: Config): Ended {
    var ret := Attempt(w, maxMempoolSize, true, answers, config);
    if ret.threw then ret else Ended(Events.Poll(ret.world, answers.lastHead, answers.lastEvents), false)
  }

  class ExecutionManager {
    const bundleManager: BundleManager
    var reputationCron: Option<nat>        // the interval of a running timer
    var autoBundleInterval: Option<nat>
    var maxMempoolSize: nat
    var autoInterval: nat

    constructor (bundleManager: BundleManager)
      ensures this.bundleManager == bundleManager
      ensures reputationCron == None && autoBundleInterval == None && maxMempoolSize == 0 && autoInterval == 0
    {
      this.bundleManager := bundleManager;
      reputationCron, autoBundleInterval, maxMempoolSize, autoInterval := None, None, 0, 0;
    }

    function World(): Events.World
      reads bundleManager.eventsManager, bundleManager.eventsManager.mempoolManager,
            bundleManager.eventsManager.reputationManager
    {
      bundleManager.eventsManager.Value()
    }

    method SetReputationCron(interval: nat)
      modifies this`reputationCron
      ensures reputationCron == if interval == 0 then None else Some(interval)
    {
      reputationCron := None;
      if interval != 0 {
        reputationCron := Some(interval);
      }
    }

    /** Intervals are given in seconds and kept in milliseconds; zero stops the timer. */
    method SetAutoBundler(interval: nat, maxMempoolSize: nat)
      modifies this`autoBundleInterval, this`autoInterval, this`maxMempoolSize
      ensures autoBundleInterval == if interval == 0 then None else Some(1000 * interval)
      ensures autoInterval == interval && this.maxMempoolSize == maxMempoolSize
    {
      autoBundleInterval := None;
      autoInterval := interval;
      if interval != 0 {
        autoBundleInterval := Some(interval * 1000);
      }
      this.maxMempoolSize := maxMempoolSize;
    }

    method AttemptBundle(force: bool, answers: Answers) returns (threw: bool)
      requires bundleManager.Wired()
      modifies bundleManager.eventsManager, bundleManager.mempoolManager, bundleManager.reputationManager`entries
      ensures Ended(World(), threw) == Attempt(old(World()), maxMempoolSize, force, answers, bundleManager.config)
    {
      threw := false;
      if force || |bundleManager.mempoolManager.mempool| >= maxMempoolSize {
        threw := bundleManager.SendNextBundle(answers);
        if threw { return; }
        if maxMempoolSize == 0 {
          bundleManager.eventsManager.HandlePastEvents(answers.laterHead, answers.laterEvents);
        }
      }
    }

    method SendUserOperation(validated: Option<Request>, answers: Answers) returns (threw: bool)
      requires bundleManager.Wired()
      modifies bundleManager.eventsManager, bundleManager.mempoolManager, bundleManager.reputationManager`entries
      ensures Ended(World(), threw) == Submission(old(World()), maxMempoolSize, validated, answers, bundleManager.config)
    {
      if validated.None? { return true; }
      var verdict := bundleManager.mempoolManager.Add(validated.value);
      if verdict.Fail? { return true; }
      threw := AttemptBundle(false, answers);
    }
  }

  /** The argument of `setBundleInterval`. */
  datatype Interval = Auto | Manual | Seconds(interval: nat)

  class DebugMethodHandler {
    const execManager: ExecutionManager
    const eventsManager: Events.EventsManager
    const repManager: Rep.ReputationManager
    const mempoolMgr: MempoolManager

    constructor (execManager: ExecutionManager)
      requires execManager.bundleManager.Wired()
      ensures this.execManager == execManager && Wired()
    {
      this.execManager := execManager;
      this.eventsManager := execManager.bundleManager.eventsManager;
      this.repManager := execManager.bundleManager.reputationManager;
      this.mempoolMgr := execManager.bundleManager.mempoolManager;
    }

    predicate Wired() {
      && execManager.bundleManager.Wired()
      && eventsManager == execManager.bundleManager.eventsManager
      && repManager == execManager.bundleManager.reputationManager
      && mempoolMgr == execManager.bundleManager.mempoolManager
    }

    /** "auto" bundles on each operation, "manual" practically never; neither starts a timer. */
    method SetBundleInterval(interval: Interval, maxPoolSize: nat)
      modifies execManager`autoBundleInterval, execManager`autoInterval, execManager`maxMempoolSize
      ensures execManager.autoBundleInterval ==
        if interval.Seconds? && interval.interval != 0 then Some(1000 * interval.interval) else None
      ensures execManager.maxMempoolSize == match interval { case Auto => 0 case Manual => 1000 case Seconds(_) => maxPoolSize }
    {
      match interval {
        case Auto => execManager.SetAutoBundler(0, 0);
        case Manual => execManager.SetAutoBundler(0, 1000);
        case Seconds(n) => execManager.SetAutoBundler(n, maxPoolSize);
      }
    }

    method SendBundleNow(answers: Answers) returns (threw: bool)
      requires Wired()
      modifies eventsManager, mempoolMgr, repManager`entries
      ensures Ended(execManager.World(), threw) ==
        BundleNow(old(execManager.World()), execManager.maxMempoolSize, answers, execManager.bundleManager.config)
    {
      threw := execManager.AttemptBundle(true, answers);
      if threw { return; }
      eventsManager.HandlePastEvents(answers.lastHead, answers.lastEvents);
    }

    /** Empties mempool and scores; the event tracker keeps its place on the chain. */
    method ClearState()
      requires Wired()
      modifies mempoolMgr, repManager`entries
      ensures mempoolMgr.Value() == EMPTY && repManager.Value() == Rep.ClearState(old(repManager.Value()))
      ensures eventsManager.Value().tracker == old(eventsManager.Value().tracker)
    {
      mempoolMgr.ClearState();
      repManager.Clear();
    }
  }
}
