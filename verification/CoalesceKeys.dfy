/** When two harness reports share a coalescing key. */
module CoalesceKeys {
  import opened Wrappers
  import opened IngressModel

  function Colons(text: string): nat {
    if text == "" then 0 else (if text[0] == ':' then 1 else 0) + Colons(text[1..])
  }

  lemma {:induction false} ColonsOfJoin(a: string, b: string)
    ensures Colons(a + b) == Colons(a) + Colons(b)
  {
    if a == "" {
      assert a + b == b;
    } else {
      assert (a + b)[1..] == a[1..] + b;
      ColonsOfJoin(a[1..], b);
    }
  }

  /** A joined text can be taken apart if the first parts hold equally many colons. */
  lemma {:induction false} FirstPartIsUnique(a: string, x: string, b: string, y: string)
    requires Colons(a) == Colons(b)
    requires a + ":" + x == b + ":" + y
    ensures a == b && x == y
    decreases if |a| > |b| then 1 else 0
  {
    if |a| > |b| {
      FirstPartIsUnique(b, y, a, x);
    } else {
      var s := a + ":" + x;
      assert a == s[..|a|] == b[..|a|];
      if |a| < |b| {
        var rest := b[|a| + 1..];
        assert s[|a|] == ':' && b[|a|] == ':';
        assert b == a + ":" + rest;
        ColonsOfJoin(a + ":", rest);
        ColonsOfJoin(a, ":");
        assert false;
      }
      assert x == s[|a| + 1..] && y == (b + ":" + y)[|b| + 1..];
    }
  }

  /** The identifying parts of two reports hold equally many colons, part by part. */
  predicate HaveEqualColons(r1: Report, r2: Report) {
    && Colons(r1.provider) == Colons(r2.provider)
    && Colons(StableAgentKey(r1)) == Colons(StableAgentKey(r2))
    && Colons(r1.eventType) == Colons(r2.eventType)
  }

  predicate PartsAgree(r1: Report, r2: Report) {
    && r1.provider == r2.provider && StableAgentKey(r1) == StableAgentKey(r2)
    && r1.eventType == r2.eventType && r1.coalesceKey.Or("-") == r2.coalesceKey.Or("-")
  }

  /**
   * Two reports agree in their identifying parts and the caller's key exactly when they share a coalescing key and
   * their parts hold equally many colons: reports that supersede each other without agreeing differ in these numbers.
   */
  lemma PartsAgreeIffKeysDo(r1: Report, r2: Report)
    ensures PartsAgree(r1, r2) <==> CoalesceKey(r1) == CoalesceKey(r2) && HaveEqualColons(r1, r2)
  {
    if CoalesceKey(r1) == CoalesceKey(r2) && HaveEqualColons(r1, r2) {
      var c1, c2 := r1.coalesceKey.Or("-"), r2.coalesceKey.Or("-");
      var t1, t2 := r1.eventType + ":" + c1, r2.eventType + ":" + c2;
      var a1, a2 := StableAgentKey(r1) + ":" + t1, StableAgentKey(r2) + ":" + t2;
      assert CoalesceKey(r1) == r1.provider + ":" + a1;
      assert CoalesceKey(r2) == r2.provider + ":" + a2;
      FirstPartIsUnique(r1.provider, a1, r2.provider, a2);
      FirstPartIsUnique(StableAgentKey(r1), t1, StableAgentKey(r2), t2);
      FirstPartIsUnique(r1.eventType, c1, r2.eventType, c2);
    }
  }

  /** With unequal numbers of colons, reports of different agents and types can supersede each other. */
  lemma ColonsCanMergeKeys(id: string, body: string)
    ensures var agent := (key: string) => Some(Correlation(None, Some(key), None, None, None));
            var r1 := Report(id, "p", "c", agent("a:b"), None, body);
            var r2 := Report(id, "p", "b:c", agent("a"), None, body);
            StableAgentKey(r1) != StableAgentKey(r2) && CoalesceKey(r1) == CoalesceKey(r2)
  {
  }

  /** What may identify the agent behind a report, the most telling first. */
  function Identifiers(report: Report): seq<Option<string>> {
    match report.correlation
    case None => []
    case Some(c) => [c.harnessRunId, c.sessionId, c.worktreeId, c.terminalTargetId, c.cwd]
  }

  /** An agent goes by the first identifier that its report gives, and a report that gives none stands for itself. */
  lemma AgentKeyIsTheFirstGiven(report: Report)
    ensures if exists i :: 0 <= i < |Identifiers(report)| && Identifiers(report)[i].Some? then
              exists i :: 0 <= i < |Identifiers(report)| && Identifiers(report)[i] == Some(StableAgentKey(report)) &&
                          forall j :: 0 <= j < i ==> Identifiers(report)[j].None?
            else StableAgentKey(report) == report.reportId
  {
    match report.correlation
    case None =>
    case Some(c) =>
      var all := Identifiers(report);
      assert all[0] == c.harnessRunId && all[1] == c.sessionId && all[2] == c.worktreeId && all[3] == c.terminalTargetId;
      assert all[4] == c.cwd;
  }

  /** A report without a key of its own shares the key of one whose key is "-", and of no other. */
  lemma MissingKeyIsDash(report: Report, key: string)
    ensures CoalesceKey(report.(coalesceKey := None)) == CoalesceKey(report.(coalesceKey := Some(key))) <==> key == "-"
  {
    PartsAgreeIffKeysDo(report.(coalesceKey := None), report.(coalesceKey := Some(key)));
  }
}
