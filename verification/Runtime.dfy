/** The installed entry point of the stats worker runtime: four modes, one transport, three exit
    codes. */
module Runtime {
  import opened Shapes
  import opened StatsWorker
  import opened Transport
  import Deploy
  import Recovery

  datatype Mode = Preflight | Apply | RecoveryPreflight | DeployExisting

  /** Two equal valid snapshots; the digest that an approval has to name. */
  method CheckState(trusted: CloudflareTransport, recovery: bool, w: Source, sha: Snapshot -> string)
    returns (r: Result<string>)
    requires trusted.Unused()
    modifies trusted
    ensures trusted.gets <= 20 && trusted.uploads == 0 && trusted.deploys == 0
    ensures trusted.trace == [Read] || trusted.trace == [Read, Read]
    ensures var a := trusted.Told();
            r.Ok? <==> Sees(a, 0) && Sees(a, 1) && View(a, 0) == View(a, 1)
                       && (if recovery then Recovery.Recoverable(View(a, 0), w) else Valid(View(a, 0), false))
    ensures r.Ok? ==> r.value == sha(View(trusted.Told(), 0))
  {
    hide AsTold, Valid, MetadataAgrees;
    Deploy.ReadableIsActive(trusted.Told(), 0);
    Deploy.ReadableIsActive(trusted.Told(), 1);
    var first := trusted.ReadSnapshot(recovery);
    if first.Raised? || first.value.None? || !Valid(first.value.value, recovery) {
      return Stop("read_failed");
    }
    var second := trusted.ReadSnapshot(recovery);
    if second.Raised? || second.value.None? || !Valid(second.value.value, recovery) {
      return Stop("read_failed");
    }
    if first.value != second.value {
      return Stop("state_drift");
    }
    if recovery && !Recovery.Recoverable(first.value.value, w) {
      return Stop("recovery_state_invalid");
    }
    return Ok(sha(first.value.value));
  }

  /** The writes each mode makes when it succeeds. */
  predicate Complete(mode: Mode, uploads: nat, deploys: nat) {
    match mode
    case Preflight => uploads == 0 && deploys == 0
    case Apply => uploads == 1 && deploys == 1
    case RecoveryPreflight => uploads == 0 && deploys == 0
    case DeployExisting => uploads == 0 && deploys == 1
  }

  /** Exit 0 means that what the mode is for was found or was written and confirmed. Otherwise exit 3 means
      that nothing was written, which the two preflights and a recovery that deployed nothing say; any other
      outcome exits 4.  No mode gets near the read budget. */
  method Run(mode: Mode, argumentsOk: bool, expected: string, w: Source, sha: Snapshot -> string,
             provider: Provider)
    returns (exit: int, trusted: CloudflareTransport)
    ensures exit == 0 || exit == 3 || exit == 4
    ensures exit == 0 ==> Complete(mode, trusted.uploads, trusted.deploys)
    ensures exit == 3 ==> trusted.uploads == 0 && trusted.deploys == 0
    ensures trusted.uploads + trusted.deploys > 0 ==> exit == 0 || exit == 4
    ensures !argumentsOk ==> exit == 3
    ensures argumentsOk && !w.reviewed ==> exit == 4 && trusted.trace == []
    ensures trusted.gets <= 40 < READ_BUDGET && trusted.Told() == AsTold(provider, w.sha256)
    ensures exit == 3 <==> !argumentsOk || (w.reviewed && exit != 0 && !mode.Apply? && trusted.deploys == 0)
    ensures argumentsOk && (mode.Preflight? || mode.RecoveryPreflight?) ==>
              var told := AsTold(provider, w.sha256);
              (exit == 0 <==> w.reviewed && Sees(told, 0) && Sees(told, 1) && View(told, 0) == View(told, 1)
                              && if mode.Preflight? then Valid(View(told, 0), false)
                                 else Recovery.Recoverable(View(told, 0), w))
    ensures argumentsOk && w.reviewed ==>
              if mode.Apply? && IsSha256(expected)
              then trusted.trace == Deploy.Calls(AsTold(provider, w.sha256), Owner(expected), w, sha)
              else if mode.Apply? then trusted.trace == []
              else if mode.DeployExisting?
              then trusted.trace == Recovery.Calls(AsTold(provider, w.sha256), w, expected, sha)
              else trusted.trace == [Read] || trusted.trace == [Read, Read]
    ensures argumentsOk && mode.Apply? ==>
              (exit == 0 <==> w.reviewed && IsSha256(expected)
                              && Deploy.GoodAnswers(AsTold(provider, w.sha256), Owner(expected), w, sha) == 6)
    ensures argumentsOk && mode.DeployExisting? ==>
              (exit == 0 <==> w.reviewed && Recovery.GoodAnswers(AsTold(provider, w.sha256), w, expected, sha) == 4)
  {
    hide AsTold, Recovery.GoodAnswers, Deploy.GoodAnswers, Deploy.Calls, Recovery.Calls, Valid;
    trusted := new CloudflareTransport(mode.DeployExisting?, w.sha256, provider);
    if !argumentsOk {
      return 3, trusted;
    }
    if !w.reviewed {
      return 4, trusted;
    }
    match mode {
      case Preflight =>
        var r := CheckState(trusted, false, w, sha);
        return if r.Ok? then 0 else 3, trusted;
      case RecoveryPreflight =>
        var r := CheckState(trusted, true, w, sha);
        return if r.Ok? then 0 else 3, trusted;
      case Apply =>
        // every stop of the protocol reaches the catch-all handler
        var r := Deploy.FutureRunOnce(trusted, Owner(expected), w, sha);
        return if r.Ok? then 0 else 4, trusted;
      case DeployExisting =>
        var r := Recovery.DeployExisting(trusted, w, expected, sha);
        return if r.Ok? then 0 else if Recovery.Uncertain(r.code) then 4 else 3, trusted;
    }
  }

  /** The envelope the entry point builds from its command line. */
  function Owner(preflight: string): Deploy.Approval {
    Deploy.Approval(Deploy.SOURCE_BLOB, Deploy.CONFIG_BLOB, WORKER, preflight, true, true)
  }
}
