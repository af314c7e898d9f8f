/** External plugins: the module that owns a child process, and the loader that hands it over. */
module External {
  import opened Options
  import Model = SupervisorModel

  /** The plugin processes launched so far, with how often each was shut down, and how many warnings
      were logged. */
  class Host {
    var shutdowns: seq<nat>
    var warnings: nat

    constructor ()
      ensures shutdowns == [] && warnings == 0
    {
      shutdowns, warnings := [], 0;
    }
  }

  /** How one stop goes: on the wire, and in tearing the process down. */
  datatype Stopping = Stopping(wireOk: bool, teardownOk: bool)

  /** A loaded plugin. The process sits in a slot that the first `Stop` empties. */
  class ExternalModule {
    const host: Host
    var process: Option<nat>

    ghost predicate Valid()
      reads this, host
    {
      process.Some? ==> process.value < |host.shutdowns|
    }

    /** The supervisor's record of an instance describes this module, whose process is `pid`. */
    ghost predicate Matches(x: Model.Instance, pid: nat)
      reads this, host
    {
      && x.external && x.handedOver && pid < |host.shutdowns|
      && (x.slot <==> process == Some(pid)) && (!x.slot ==> process.None?)
      && x.teardowns == host.shutdowns[pid]
    }

    constructor (host: Host, pid: nat)
      requires pid < |host.shutdowns|
      ensures Valid() && this.host == host && process == Some(pid)
    {
      this.host := host;
      process := Some(pid);
    }

    /** Tears the process down even if the wire-level stop failed; a second stop finds the slot empty. */
    method Stop(outcome: Stopping) returns (ok: bool)
      requires Valid()
      modifies this, host
      ensures Valid() && process.None?
      ensures ok <==> old(process).None? || outcome.teardownOk
      ensures host.shutdowns ==
        if old(process).Some? then old(host.shutdowns)[old(process).value := old(host.shutdowns[process.value]) + 1]
        else old(host.shutdowns)
      ensures host.warnings == old(host.warnings) + if outcome.wireOk then 0 else 1
      ensures forall x: Model.Instance, pid: nat :: old(Matches(x, pid)) ==> Matches(Model.Halted(x), pid)
    {
      if !outcome.wireOk {
        host.warnings := host.warnings + 1;
      }
      match process {
        case None =>
          ok := true;
        case Some(pid) =>
          process := None;
          host.shutdowns := host.shutdowns[pid := host.shutdowns[pid] + 1];
          ok := outcome.teardownOk;
      }
    }

    /** However often it is stopped, and however the stops turn out, the process is shut down once, by
        the first stop; only that one can fail. */
    method StopRepeatedly(outcomes: seq<Stopping>) returns (oks: seq<bool>)
      requires Valid()
      modifies this, host
      ensures Valid() && (outcomes != [] ==> process.None?)
      ensures host.shutdowns ==
        if outcomes != [] && old(process).Some?
        then old(host.shutdowns)[old(process).value := old(host.shutdowns[process.value]) + 1]
        else old(host.shutdowns)
      ensures |oks| == |outcomes|
      ensures forall k :: 0 <= k < |oks| ==> (oks[k] <==> k > 0 || old(process).None? || outcomes[0].teardownOk)
    {
      oks := [];
      for k := 0 to |outcomes|
        invariant Valid()
        invariant if k == 0 then process == old(process) else process.None?
        invariant host.shutdowns ==
          if k > 0 && old(process).Some?
          then old(host.shutdowns)[old(process).value := old(host.shutdowns[process.value]) + 1]
          else old(host.shutdowns)
        invariant |oks| == k
        invariant forall j :: 0 <= j < k ==> (oks[j] <==> j > 0 || old(process).None? || outcomes[0].teardownOk)
      {
        var ok := Stop(outcomes[k]);
        oks := oks + [ok];
      }
    }
  }

  datatype Loaded = Plugin(plugin: ExternalModule) | NoSuchPlugin | LoadFailed

  /** Where loading a plugin directory gets to. */
  datatype Attempt = Missing | BadManifest | Unverified | LaunchFailed | DispenseFailed | Dispensed

  /** What the supervisor sees of an attempt: not found, a failure to load, one after the process came
      up, or an instance. */
  predicate Seen(attempt: Attempt, o: Model.Outcome)
  {
    match attempt
    case Missing => o.NotFound?
    case BadManifest => o.LoadError?
    case Unverified => o.LoadError?
    case LaunchFailed => o.LoadError?
    case DispenseFailed => o.DispenseError?
    case Dispensed => o.InitError? || o.StartError? || o.Success?
  }

  /** The record that `o` adds to the instances is true of the attempt: one with the process in its slot,
      or stopped again if it did not start; one whose process the loader shut down; or none. */
  predicate Recorded(before: seq<Model.Instance>, after: seq<Model.Instance>, attempt: Attempt, o: Model.Outcome)
  {
    if attempt.Dispensed? then
      && |after| == |before| + 1 && after[..|before|] == before
      && var x := after[|before|];
        x.external && x.handedOver && (x.slot <==> o.Success?) && x.teardowns == (if o.Success? then 0 else 1)
    else if attempt.DispenseFailed? then
      && |after| == |before| + 1 && after[..|before|] == before
      && after[|before|].external && !after[|before|].handedOver && after[|before|].teardowns == 1
    else after == before
  }

  /** So it is for a load, and for a restart once the old instance is stopped. */
  lemma AttemptsRecorded(s: Model.State, n: Model.Name, attempt: Attempt, o: Model.Outcome, saved: bool,
                         id: nat, e: Model.Entry)
    requires n !in s.cfg.registry && Seen(attempt, o)
    ensures n !in s.loaded ==> Recorded(s.instances, Model.DoLoad(s, n, o, saved).instances, attempt, o)
    ensures Recorded(s.instances, Model.Replace(s, id, n, e, o).instances, attempt, o)
  {
  }

  /** A process that came up is either owned by the module handed back, running, or was shut down
      once by the loader; no other process is touched. */
  method LoadPlugin(host: Host, attempt: Attempt) returns (r: Loaded)
    modifies host
    ensures r.NoSuchPlugin? <==> attempt.Missing?
    ensures r.Plugin? <==> attempt.Dispensed?
    ensures forall o: Model.Outcome :: Seen(attempt, o) ==>
      && (r.NoSuchPlugin? <==> o.NotFound?) && (r.LoadFailed? <==> o.LoadError? || o.DispenseError?)
    ensures r.Plugin? ==>
      && fresh(r.plugin) && r.plugin.host == host && r.plugin.Valid()
      && r.plugin.process == Some(old(|host.shutdowns|)) && host.shutdowns == old(host.shutdowns) + [0]
    ensures attempt.DispenseFailed? ==> host.shutdowns == old(host.shutdowns) + [1]
    ensures !attempt.Dispensed? && !attempt.DispenseFailed? ==> host.shutdowns == old(host.shutdowns)
  {
    if attempt.Missing? {
      return NoSuchPlugin;
    }
    if attempt.BadManifest? || attempt.Unverified? || attempt.LaunchFailed? {
      return LoadFailed;
    }
    var pid := |host.shutdowns|;
    host.shutdowns := host.shutdowns + [0];
    if attempt.DispenseFailed? {
      host.shutdowns := host.shutdowns[pid := host.shutdowns[pid] + 1];
      return LoadFailed;
    }
    var m := new ExternalModule(host, pid);
    return Plugin(m);
  }
}
