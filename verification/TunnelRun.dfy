/** Applying the pageview transformer to a remotely held tunnel config: two reads, one PUT, one read. */
module TunnelRun {
  import opened Shapes
  import opened Json
  import opened Ingress
  import opened IngressMeaning

  datatype Snapshot = Snapshot(tunnel: string, version: nat, config: Value)

  datatype Report = Report(baseline: string, present: bool, attempted: bool, verified: bool)

  /** A run ends with a report, stops before any write, or stops with a write attempted. */
  datatype Ending = Reported(report: Report) | Blocked(code: string) | Unreconciled

  datatype Call = ReadAll | ReadConfig | Put(config: Value)

  /** What the service answers, should it be asked. */
  datatype Answers = Answers(first: Answer<Snapshot>, again: Answer<Snapshot>, put: Answer<()>, last: Answer<Snapshot>)

  type Digest = Snapshot -> string

  predicate Approved(a: Answers, sha: Digest, expected: string) {
    a.first.Replied? && IsSha256(expected) && expected == sha(a.first.value)
  }

  /** Whether the one PUT is sent. */
  predicate Writes(a: Answers, apply: bool, expected: string, sha: Digest, glob: Glob) {
    a.first.Replied? && apply && Approved(a, sha, expected)
    && Accepts(Pageview, a.first.value.config, glob) && !Installed(Pageview, a.first.value.config)
    && a.again == a.first
  }

  method Run(a: Answers, apply: bool, expected: string, sha: Digest, glob: Glob)
    returns (e: Ending, calls: seq<Call>)
    ensures (exists c :: Put(c) in calls) <==> Writes(a, apply, expected, sha, glob)
    ensures Writes(a, apply, expected, sha, glob) ==>
              calls == [ReadAll, ReadConfig, Put(Desired(Pageview, a.first.value.config))]
                       + if a.put.Replied? then [ReadConfig] else []
    ensures e.Unreconciled? ==> Writes(a, apply, expected, sha, glob)
    ensures Writes(a, apply, expected, sha, glob) ==>
              var before := a.first.value;
              e == if a.put.Replied? && a.last.Replied?
                      && a.last.value.config == Desired(Pageview, before.config)
                      && a.last.value.version > before.version
                   then Reported(Report(sha(before), true, true, true)) else Unreconciled
    ensures e.Reported? && !e.report.attempted <==>
              a.first.Replied? && Accepts(Pageview, a.first.value.config, glob)
              && (apply ==> Installed(Pageview, a.first.value.config)
                            && IsSha256(expected) && expected == sha(a.first.value))
    ensures e.Reported? && !e.report.attempted ==>
              e.report == Report(sha(a.first.value), Installed(Pageview, a.first.value.config), false, false)
              && calls == [ReadAll]
    ensures e.Blocked? ==>
              e.code == if a.first.Raised? then "PREFLIGHT_FAILED"
                        else if Refusal(Pageview, a.first.value.config, glob).Some?
                        then Refusal(Pageview, a.first.value.config, glob).value
                        else if !IsSha256(expected) || expected != sha(a.first.value) then "BASELINE_MISMATCH"
                        else "PREWRITE_DRIFT"
    ensures e.Blocked? ==>
              calls == if a.first.Replied? && Accepts(Pageview, a.first.value.config, glob)
                          && Approved(a, sha, expected)
                       then [ReadAll, ReadConfig] else [ReadAll]
  {
    hide Refusal, Installed, Desired, IsSha256;
    calls := [ReadAll];
    if a.first.Raised? {
      return Blocked("PREFLIGHT_FAILED"), calls;
    }
    var before := a.first.value;
    var prepared := Prepare(Pageview, before.config, glob);
    if prepared.Stop? {
      return Blocked(prepared.code), calls;
    }
    var (desired, change) := prepared.value;
    var report := Report(sha(before), !change, false, false);
    if !apply {
      return Reported(report), calls;
    }
    if !IsSha256(expected) || expected != sha(before) {
      return Blocked("BASELINE_MISMATCH"), calls;
    }
    if !change {
      return Reported(report), calls;
    }
    calls := calls + [ReadConfig];
    if a.again != Replied(before) {
      return Blocked("PREWRITE_DRIFT"), calls;
    }
    calls := calls + [Put(desired)];
    assert calls[2] == Put(desired);
    if a.put.Raised? {
      return Unreconciled, calls;
    }
    calls := calls + [ReadConfig];
    assert calls[2] == Put(desired);
    if a.last.Raised? || a.last.value.config != desired || a.last.value.version <= before.version {
      return Unreconciled, calls;
    }
    return Reported(report.(present := true, attempted := true, verified := true)), calls;
  }

  /** Whenever a run reports the entries present, the config it read last sends the exact path of the
      public hosts to the collector and every other request as the approved config did. */
  lemma ReportedPresentRoutes(a: Answers, sha: Digest, expected: string, q: Request, router: Router, glob: Glob)
    requires Honours(router, glob)
    requires Writes(a, true, expected, sha, glob) && a.last.Replied?
    requires a.last.value.config == Desired(Pageview, a.first.value.config)
    ensures var rule := Route(Table(a.last.value.config), q, router);
            if q.host in ["ausmalwiese.de", "www.ausmalwiese.de"] && q.path == "/api/pageview"
            then rule.Some? && Delivered(rule.value, q) == Delivery(Some(Str("http://127.0.0.1:9193")), Str(q.host))
            else rule == Route(Table(a.first.value.config), q, router)
  {
    PreparedReaches(Pageview, a.first.value.config, q, router, glob);
  }
}
