// The reconciliation step run again and again, as the operator worker does
// on each of its ticks: what holds of the local state and of the calls made
// after any number of steps.

module RepeatedSteps {
  import opened CaasOperator

  datatype Option<T> = None | Some(value: T)

  /** What a sequence of steps does: the local state left by the last one,
      the calls of all of them in order, and the result of each. */
  datatype Run = Run(after: StateRecord, calls: seq<Call>, results: seq<MaybeError>)

  /** Runs one reconciliation step per element of `replies`, each starting
      from the local state the previous one left. */
  function Steps(application: string, before: StateRecord, replies: seq<Replies>): (r: Run)
    ensures |r.results| == |replies|
    ensures |replies| <= |r.calls| <= 5 * |replies|
    decreases |replies|
  {
    if replies == [] then Run(before, [], [])
    else
      var first := Reconcile(application, before, replies[0]);
      var rest := Steps(application, first.after, replies[1..]);
      Run(rest.after, first.calls + rest.calls, [first.result] + rest.results)
  }

  /** Every state-file write comes right after a Deploy, which comes right
      after the Stage of the very charm URL the write records. */
  ghost predicate WritesFollowDeploy(calls: seq<Call>) {
    forall i :: 0 <= i < |calls| && calls[i].WriteState? ==>
      2 <= i && calls[i - 1] == DeployCharm && calls[i - 2].StageCharm?
      && calls[i - 2].info.curl == calls[i].record.charmURL
  }

  lemma WritesFollowDeployConcat(a: seq<Call>, b: seq<Call>)
    requires WritesFollowDeploy(a) && WritesFollowDeploy(b)
    ensures WritesFollowDeploy(a + b)
  {
    forall i | 0 <= i < |a + b| && (a + b)[i].WriteState?
      ensures 2 <= i && (a + b)[i - 1] == DeployCharm && (a + b)[i - 2].StageCharm?
        && (a + b)[i - 2].info.curl == (a + b)[i].record.charmURL
    {
      if i < |a| {
        assert a[i] == (a + b)[i];
      } else {
        assert b[i - |a|] == (a + b)[i];
      }
    }
  }

  /** Across any number of steps, the state file is only ever written right
      after the Stage and Deploy of the charm it records. */
  lemma {:induction false} StepsWriteOnlyAfterDeploy(application: string, before: StateRecord, replies: seq<Replies>)
    ensures WritesFollowDeploy(Steps(application, before, replies).calls)
    decreases |replies|
  {
    if replies != [] {
      var first := Reconcile(application, before, replies[0]);
      StepsWriteOnlyAfterDeploy(application, first.after, replies[1..]);
      WritesFollowDeployConcat(first.calls, Steps(application, first.after, replies[1..]).calls);
    }
  }

  /** The record of the last state-file write among `calls`, if any. */
  function LastWrite(calls: seq<Call>): (r: Option<StateRecord>)
    ensures r.Some? ==> WriteState(r.value) in calls
    ensures r.None? ==> forall c :: c in calls ==> !c.WriteState?
    decreases |calls|
  {
    if calls == [] then None
    else if calls[|calls| - 1].WriteState? then Some(calls[|calls| - 1].record)
    else LastWrite(calls[..|calls| - 1])
  }

  lemma {:induction false} LastWriteConcat(a: seq<Call>, b: seq<Call>)
    ensures LastWrite(a + b) == if LastWrite(b).Some? then LastWrite(b) else LastWrite(a)
    decreases |b|
  {
    if b == [] {
      assert a + b == a;
    } else {
      var n := |b| - 1;
      assert (a + b)[..|a + b| - 1] == a + b[..n];
      if !b[n].WriteState? {
        LastWriteConcat(a, b[..n]);
      }
    }
  }

  /** One step: the last write it makes records the state it leaves; with no
      write, the charm URL is the one it started from. */
  lemma StepLastWrite(application: string, before: StateRecord, replies: Replies)
    ensures var s := Reconcile(application, before, replies);
      match LastWrite(s.calls)
      case None => s.after.charmURL == before.charmURL
      case Some(rec) => rec == s.after
  {
    var s := Reconcile(application, before, replies);
    var n := |s.calls|;
    if s.calls[n - 1].WriteState? {
      assert LastWrite(s.calls) == Some(s.calls[n - 1].record);
    }
  }

  /** After any number of steps, the last record handed to the state file
      names the charm URL held in memory; if no record was ever handed to
      it, the charm URL is the one the worker started with. The write of
      that record may itself have failed: see `FailedWriteNotRetried`. */
  lemma {:induction false} LastHandedRecordMatchesMemory(application: string, before: StateRecord, replies: seq<Replies>)
    ensures var r := Steps(application, before, replies);
      match LastWrite(r.calls)
      case None => r.after.charmURL == before.charmURL
      case Some(rec) => rec.charmURL == r.after.charmURL
    decreases |replies|
  {
    if replies != [] {
      var first := Reconcile(application, before, replies[0]);
      var rest := Steps(application, first.after, replies[1..]);
      LastHandedRecordMatchesMemory(application, first.after, replies[1..]);
      StepLastWrite(application, before, replies[0]);
      LastWriteConcat(first.calls, rest.calls);
    }
  }

  /** The state file's modified version can fall behind memory: after a step
      that hands the whole record to the state file, an "already downloaded"
      step records the new modified version in memory only, so the last
      record handed to the state file keeps the old version. */
  lemma ShortCircuitVersionNotWritten(application: string, before: StateRecord, first: Replies, second: Replies)
    requires first.charm.GetterOk? && before.charmURL != first.charm.response.curl
    requires first.maintenanceStatus == NoError && first.stage == NoError && first.deploy == NoError
    requires second.charm.GetterOk? && second.charm.response.curl == first.charm.response.curl
    ensures var r := Steps(application, before, [first, second]);
      var written := StateRecord(first.charm.response.curl, first.charm.response.modifiedVersion);
      && LastWrite(r.calls) == Some(written)
      && r.after == written.(charmModifiedVersion := second.charm.response.modifiedVersion)
  {
    var s1 := Reconcile(application, before, first);
    var s2 := Reconcile(application, s1.after, second);
    assert Steps(application, s1.after, [first, second][1..]).calls == s2.calls;
    LastWriteConcat(s1.calls, s2.calls);
    assert LastWrite(s1.calls) == Some(s1.calls[4].record);
  }

  /** Idempotence over any number of steps: once `url` is deployed, steps
      whose getter keeps returning `url` call only the getter, all succeed,
      keep `url` deployed, and leave the last modified version returned. */
  lemma {:induction false} StepsAfterDeployOnlyQueryGetter(application: string, before: StateRecord,
                                                           replies: seq<Replies>, url: CharmURL?)
    requires before.charmURL == url
    requires forall i :: 0 <= i < |replies| ==>
      replies[i].charm.GetterOk? && replies[i].charm.response.curl == url
    ensures var r := Steps(application, before, replies);
      && r.after.charmURL == url
      && |r.calls| == |replies|
      && (forall k :: 0 <= k < |r.calls| ==> r.calls[k] == GetCharm(application))
      && (forall k :: 0 <= k < |r.results| ==> r.results[k] == NoError)
      && (replies != [] ==>
            r.after.charmModifiedVersion == replies[|replies| - 1].charm.response.modifiedVersion)
    decreases |replies|
  {
    if replies != [] {
      var first := Reconcile(application, before, replies[0]);
      var tail := replies[1..];
      StepsAfterDeployOnlyQueryGetter(application, first.after, tail, url);
      if tail == [] {
        assert Steps(application, first.after, tail).after == first.after;
      } else {
        assert replies[|replies| - 1] == tail[|tail| - 1];
      }
    }
  }
}
