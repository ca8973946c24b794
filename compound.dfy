/** The combined "delete pipelines and pipeline versions" action
    (`_dialogDeletePipelinesAndPipelineVersions`, `_deletePipelinesAndPipelineVersions`):
    the selected pipelines are deleted first; the version groups of pipelines that
    were just deleted are dropped; the remaining versions are deleted; then one
    snackbar, at most one failure dialog, a callback for the pipelines and one per
    selected group, and a refresh. */
module CompoundDelete {
  import opened Common
  import opened Text
  import opened Batch
  import opened Dialogs

  /** A JavaScript object from pipeline id to the version ids selected under it,
      as its entries in key order. */
  type Groups = seq<(Id, seq<Id>)>

  predicate DistinctKeys(d: Groups) {
    forall i, j :: 0 <= i < j < |d| ==> d[i].0 != d[j].0
  }

  /** `_deepCountDictionary`: the number of ids listed over all groups. */
  function DeepCount(d: Groups): nat {
    if d == [] then 0 else |d[0].1| + DeepCount(d[1..])
  }

  /** Every id of every group, group after group. */
  function Flatten(d: Groups): seq<Id> {
    if d == [] then [] else d[0].1 + Flatten(d[1..])
  }

  /** `dict[key]`: the list of the first entry with that key, `None` (undefined) if there is none. */
  function Lookup(d: Groups, key: Id): Option<seq<Id>> {
    if d == [] then None else if d[0].0 == key then Some(d[0].1) else Lookup(d[1..], key)
  }

  /** The deep count is the number of ids of all groups taken together. */
  lemma {:induction false} DeepCountIsFlattenLength(d: Groups)
    ensures DeepCount(d) == |Flatten(d)|
  {
    if d != [] {
      DeepCountIsFlattenLength(d[1..]);
    }
  }

  lemma {:induction false} FlattenAppend(a: Groups, b: Groups)
    ensures Flatten(a + b) == Flatten(a) + Flatten(b)
  {
    if a == [] {
      assert a + b == b;
    } else {
      assert (a + b)[1..] == a[1..] + b;
      FlattenAppend(a[1..], b);
    }
  }

  /** An id is among the flattened ids exactly when some group lists it. */
  lemma {:induction false} FlattenMembership(d: Groups, v: Id)
    ensures v in Flatten(d) <==> exists e :: e in d && v in e.1
  {
    if d != [] {
      FlattenMembership(d[1..], v);
      assert forall e :: e in d <==> e == d[0] || e in d[1..];
    }
  }

  /** The groups whose pipeline is not in `gone`, in their order (the filter of
      `selectedVersionIds` by the set of deleted pipelines). */
  function Without(d: Groups, gone: set<Id>): (r: Groups)
    ensures forall e :: e in r <==> e in d && e.0 !in gone
    ensures DeepCount(r) <= DeepCount(d)
    ensures DistinctKeys(d) ==> DistinctKeys(r)
  {
    if d == [] then []
    else if d[0].0 in gone then Without(d[1..], gone)
    else
      var rest := Without(d[1..], gone);
      assert forall e :: e in rest ==> e in d[1..];
      assert DistinctKeys(d) ==> forall e :: e in d[1..] ==> e.0 != d[0].0 by {
        if DistinctKeys(d) {
          forall e | e in d[1..] ensures e.0 != d[0].0 {
            var j :| 0 <= j < |d[1..]| && d[1..][j] == e;
            assert d[j + 1] == e;
          }
        }
      }
      [d[0]] + rest
  }

  /** `Without` keeps the surviving groups in their order: it distributes over
      concatenation, and on one group it keeps it exactly when its key survives. */
  lemma {:induction false} WithoutAppend(a: Groups, b: Groups, gone: set<Id>)
    ensures Without(a + b, gone) == Without(a, gone) + Without(b, gone)
    decreases |a|
  {
    if a == [] {
      assert a + b == b;
    } else {
      var ab := a + b;
      assert ab[0] == a[0] && ab[1..] == a[1..] + b;
      WithoutAppend(a[1..], b, gone);
      var x, y := Without(a[1..], gone), Without(b, gone);
      if a[0].0 !in gone {
        assert [a[0]] + (x + y) == ([a[0]] + x) + y;
      }
    }
  }

  lemma WithoutOne(e: (Id, seq<Id>), gone: set<Id>)
    ensures Without([e], gone) == if e.0 in gone then [] else [e]
  {
  }
  /** Dropping the groups of `gone` makes exactly their keys undefined. */
  lemma {:induction false} LookupWithout(d: Groups, gone: set<Id>, key: Id)
    ensures Lookup(Without(d, gone), key) == if key in gone then None else Lookup(d, key)
  {
    if d != [] {
      LookupWithout(d[1..], gone, key);
    }
  }

  /** The failed versions per group once every deletion has settled: an entry for
      each group with at least one version, listing its rejected versions. */
  function SettledFailures(d: Groups, api: Id -> CallResult): (r: Groups)
    ensures DeepCount(r) <= DeepCount(d)
  {
    if d == [] then []
    else
      var rest := SettledFailures(d[1..], api);
      if d[0].1 != [] then
        var r := [(d[0].0, Failed(api, d[0].1))] + rest;
        assert r[1..] == rest;
        r
      else rest
  }

  /** What the failed-version record holds when it is read, as the code is written:
      an empty entry for each group with at least one version, since no deletion
      has settled yet. */
  function UnsettledFailures(d: Groups): (r: Groups)
    ensures DeepCount(r) == 0
    ensures forall e :: e in r ==> e.1 == []
  {
    if d == [] then []
    else
      var rest := UnsettledFailures(d[1..]);
      if d[0].1 != [] then
        var r := [(d[0].0, [])] + rest;
        assert r[1..] == rest;
        r
      else rest
  }

  lemma {:induction false} DeepCountAppend(a: Groups, b: Groups)
    ensures DeepCount(a + b) == DeepCount(a) + DeepCount(b)
  {
    if a == [] {
      assert a + b == b;
    } else {
      assert (a + b)[1..] == a[1..] + b;
      DeepCountAppend(a[1..], b);
    }
  }

  lemma {:induction false} SettledFailuresAppend(a: Groups, b: Groups, api: Id -> CallResult)
    ensures SettledFailures(a + b, api) == SettledFailures(a, api) + SettledFailures(b, api)
  {
    if a == [] {
      assert a + b == b;
    } else {
      assert (a + b)[1..] == a[1..] + b;
      SettledFailuresAppend(a[1..], b, api);
    }
  }

  lemma {:induction false} UnsettledFailuresAppend(a: Groups, b: Groups)
    ensures UnsettledFailures(a + b) == UnsettledFailures(a) + UnsettledFailures(b)
  {
    if a == [] {
      assert a + b == b;
    } else {
      assert (a + b)[1..] == a[1..] + b;
      UnsettledFailuresAppend(a[1..], b);
    }
  }

  /** The settled record counts exactly the rejected version calls. */
  lemma {:induction false} SettledFailuresCount(d: Groups, api: Id -> CallResult)
    ensures DeepCount(SettledFailures(d, api)) == |Failed(api, Flatten(d))|
  {
    if d != [] {
      SettledFailuresCount(d[1..], api);
      FailedAppend(api, d[0].1, Flatten(d[1..]));
      if d[0].1 == [] {
        assert Failed(api, d[0].1) == [];
      }
    }
  }

  /** In the settled record, a group's entry lists its rejected versions, and a group
      with no versions has no entry. */
  lemma {:induction false} LookupSettled(d: Groups, api: Id -> CallResult, key: Id)
    requires DistinctKeys(d)
    ensures Lookup(SettledFailures(d, api), key)
      == match Lookup(d, key)
         case None => None
         case Some(vs) => if vs == [] then None else Some(Failed(api, vs))
  {
    if d != [] {
      assert DistinctKeys(d[1..]) by {
        forall i, j | 0 <= i < j < |d[1..]| ensures d[1..][i].0 != d[1..][j].0 {
          assert d[1..][i] == d[i + 1] && d[1..][j] == d[j + 1];
        }
      }
      LookupSettled(d[1..], api, key);
      var rest := SettledFailures(d[1..], api);
      if d[0].0 == key {
        assert forall e :: e in d[1..] ==> e.0 != key by {
          forall e | e in d[1..] ensures e.0 != key {
            var j :| 0 <= j < |d[1..]| && d[1..][j] == e;
            assert d[j + 1] == e;
          }
        }
        LookupAbsent(d[1..], key);
        LookupSettledAbsent(d[1..], api, key);
      }
      if d[0].1 != [] {
        assert SettledFailures(d, api)[1..] == rest;
      }
    }
  }

  lemma {:induction false} LookupAbsent(d: Groups, key: Id)
    requires forall e :: e in d ==> e.0 != key
    ensures Lookup(d, key) == None
  {
    if d != [] {
      LookupAbsent(d[1..], key);
    }
  }

  lemma {:induction false} LookupSettledAbsent(d: Groups, api: Id -> CallResult, key: Id)
    requires forall e :: e in d ==> e.0 != key
    ensures Lookup(SettledFailures(d, api), key) == None
  {
    if d != [] {
      LookupSettledAbsent(d[1..], api, key);
      if d[0].1 != [] {
        assert SettledFailures(d, api)[1..] == SettledFailures(d[1..], api);
      }
    }
  }

  lemma LookupAt(d: Groups, i: nat)
    requires DistinctKeys(d) && i < |d|
    ensures Lookup(d, d[i].0) == Some(d[i].1)
  {
    if i > 0 {
      assert DistinctKeys(d[1..]) by {
        forall a, b | 0 <= a < b < |d[1..]| ensures d[1..][a].0 != d[1..][b].0 {
          assert d[1..][a] == d[a + 1] && d[1..][b] == d[b + 1];
        }
      }
      LookupAt(d[1..], i - 1);
    }
  }

  /** `succeededfulIds` after the pipeline phase: the selected pipelines whose
      deletion resolved. */
  function Deleted(api: Id -> CallResult, ids: seq<Id>): set<Id> {
    set x | x in ids && api(x).Resolved?
  }

  /** The deleted pipelines are the selected ones minus the failed ones, as the
      pipeline phase computes them. */
  lemma DeletedIsSelectedMinusFailed(api: Id -> CallResult, ids: seq<Id>)
    ensures Deleted(api, ids) == (set x | x in ids) - (set x | x in Failed(api, ids))
  {
    FailedMembership(api, ids);
  }

  /** The selected ids not (yet) recorded as failed. */
  function Remaining(ids: seq<Id>, failed: seq<Id>): set<Id> {
    set x | x in ids && x !in failed
  }

  /** Recording one more failure removes that id from the remaining ones. */
  lemma RemainingStep(ids: seq<Id>, failed: seq<Id>, y: Id)
    ensures Remaining(ids, failed + [y]) == Remaining(ids, failed) - {y}
  {
    assert forall x :: x in failed + [y] <==> x in failed || x == y;
  }

  /** Once every failure is recorded, the remaining ids are the deleted ones. */
  lemma RemainingAfterAll(api: Id -> CallResult, ids: seq<Id>)
    ensures Remaining(ids, Failed(api, ids)) == Deleted(api, ids)
  {
    FailedMembership(api, ids);
  }

  /** Phase one: one deletion per selected pipeline; the rejected ones are removed
      from the set of deleted pipelines and each gets a message. */
  method DeletePipelines(env: Env, ids: seq<Id>, api: Id -> CallResult)
    returns (calls: seq<Id>, failed: seq<Id>, deleted: set<Id>, messages: seq<string>)
    ensures calls == ids
    ensures failed == Failed(api, ids)
    ensures deleted == Deleted(api, ids)
    ensures messages == Messages(env.t("common:deletePipelineFailed"), env.t("common:withError"), api, ids)
  {
    var prefix, withError := env.t("common:deletePipelineFailed"), env.t("common:withError");
    calls, failed, messages := [], [], [];
    deleted := set x | x in ids;
    for i := 0 to |ids|
      invariant calls == ids[..i]
      invariant failed == Failed(api, ids[..i])
      invariant messages == Messages(prefix, withError, api, ids[..i])
      invariant deleted == Remaining(ids, failed)
    {
      ExecuteStep(api, ids, i, prefix, withError);
      calls := calls + [ids[i]];
      if api(ids[i]).Rejected? {
        RemainingStep(ids, failed, ids[i]);
        failed := failed + [ids[i]];
        deleted := deleted - {ids[i]};
        messages := messages + [FailureMessage(prefix, withError, ids[i], api(ids[i]).error)];
      }
    }
    assert ids[..|ids|] == ids;
    RemainingAfterAll(api, ids);
  }

  /** Taking one more group into account in phase two. */
  lemma SettledStep(pending: Groups, g: nat, api: Id -> CallResult, prefix: string, withError: string)
    requires g < |pending|
    ensures Flatten(pending[..g + 1]) == Flatten(pending[..g]) + pending[g].1
    ensures SettledFailures(pending[..g + 1], api) == SettledFailures(pending[..g], api)
      + (if pending[g].1 != [] then [(pending[g].0, Failed(api, pending[g].1))] else [])
    ensures Messages(prefix, withError, api, Flatten(pending[..g + 1]))
      == Messages(prefix, withError, api, Flatten(pending[..g])) + Messages(prefix, withError, api, pending[g].1)
  {
    var last: Groups := [pending[g]];
    assert pending[..g + 1] == pending[..g] + last;
    assert last[1..] == [];
    FlattenAppend(pending[..g], last);
    assert Flatten(last) == pending[g].1;
    SettledFailuresAppend(pending[..g], last, api);
    MessagesAppend(prefix, withError, api, Flatten(pending[..g]), pending[g].1);
  }

  /** Phase two with every version deletion awaited: one call per version of each
      pending group, and the rejected versions recorded per group. */
  method DeleteVersions(env: Env, pending: Groups, api: Id -> CallResult)
    returns (calls: seq<Id>, failedVersions: Groups, messages: seq<string>)
    ensures calls == Flatten(pending)
    ensures failedVersions == SettledFailures(pending, api)
    ensures messages == Messages(env.t("common:deletePipelineVersionFailed"), env.t("common:withError"), api, Flatten(pending))
  {
    var prefix, withError := env.t("common:deletePipelineVersionFailed"), env.t("common:withError");
    calls, failedVersions, messages := [], [], [];
    for g := 0 to |pending|
      invariant calls == Flatten(pending[..g])
      invariant failedVersions == SettledFailures(pending[..g], api)
      invariant messages == Messages(prefix, withError, api, calls)
    {
      SettledStep(pending, g, api, prefix, withError);
      var pipelineId, versions := pending[g].0, pending[g].1;
      var groupCalls, groupFailed, groupMessages := Execute(api, versions, prefix, withError);
      if versions != [] {
        failedVersions := failedVersions + [(pipelineId, groupFailed)];
      }
      calls := calls + groupCalls;
      messages := messages + groupMessages;
    }
    assert pending[..|pending|] == pending;
  }

  /** Phase two as written: the version deletions are issued and each group with
      versions gets an empty entry, but the deletions are not awaited, so no
      rejection is recorded and no message is added before the results are read. */
  method DeleteVersionsUnawaited(pending: Groups)
    returns (calls: seq<Id>, failedVersions: Groups)
    ensures calls == Flatten(pending)
    ensures failedVersions == UnsettledFailures(pending)
  {
    calls, failedVersions := [], [];
    for g := 0 to |pending|
      invariant calls == Flatten(pending[..g])
      invariant failedVersions == UnsettledFailures(pending[..g])
    {
      var pipelineId, versions := pending[g].0, pending[g].1;
      var last: Groups := [pending[g]];
      assert pending[..g + 1] == pending[..g] + last;
      assert last[1..] == [];
      FlattenAppend(pending[..g], last);
      UnsettledFailuresAppend(pending[..g], last);
      assert Flatten(last) == versions;
      if versions != [] {
        failedVersions := failedVersions + [(pipelineId, [])];
      }
      calls := calls + versions;
    }
    assert pending[..|pending|] == pending;
  }

  /** A callback call: the pipeline id (`undefined` for the pipelines themselves)
      and the list passed with it (`undefined` when the group has no entry). */
  datatype GroupCallback = GroupCallback(pipelineId: Option<Id>, ids: Option<seq<Id>>)

  /** Everything the action shows or calls once both phases are done. */
  datatype Report = Report(snackbar: Option<string>, dialog: Option<Dialog>, callbacks: seq<GroupCallback>, refreshed: bool)

  /** The success snackbar for `pipelines` deleted pipelines and `versions` deleted
      versions: shown exactly when either number is positive; it reads "<deletion
      succeeded> <phrase>", stating the number of deleted pipelines when there are
      any, and otherwise the number of deleted versions. */
  function DeletionSnackbar(env: Env, pipelines: int, versions: int): (m: Option<string>)
    ensures m.Some? <==> pipelines > 0 || versions > 0
    ensures var lead := env.t("common:deletionSucceeded") + " ";
      m.Some? ==>
        |lead| <= |m.value| && LeadingNumber(m.value[|lead|..]) == if pipelines > 0 then pipelines else versions
    ensures m.Some? ==>
      m.value == env.t("common:deletionSucceeded") + " "
                 + DeletionPhrase(env.t, pipelines, versions, " " + env.t("common:and") + " ")
  {
    var lead := env.t("common:deletionSucceeded") + " ";
    var phrase := DeletionPhrase(env.t, pipelines, versions, " " + env.t("common:and") + " ");
    if phrase != "" then
      PhraseAfterLead(lead, env.t, pipelines, versions, " " + env.t("common:and") + " ");
      Some(lead + phrase)
    else None
  }

  /** A non-empty deletion phrase behind a lead starts with the count it states. */
  lemma PhraseAfterLead(lead: string, t: string -> string, pipelines: int, versions: int, and: string)
    requires DeletionPhrase(t, pipelines, versions, and) != ""
    ensures var s := lead + DeletionPhrase(t, pipelines, versions, and);
      |lead| <= |s| && LeadingNumber(s[|lead|..]) == if pipelines > 0 then pipelines else versions
  {
    var phrase := DeletionPhrase(t, pipelines, versions, and);
    assert (lead + phrase)[|lead|..] == phrase + "";
    DeletionPhraseThenText(t, pipelines, versions, and, "");
  }

  /** The failure dialog: opened exactly when a pipeline or a version failed, with
      every collected message in its body and a single dismiss button. */
  function DeletionFailureDialog(env: Env, failedPipelines: seq<Id>, failedVersions: Groups, messages: seq<string>)
    : (d: Option<Dialog>)
    ensures d.Some? <==> |failedPipelines| > 0 || DeepCount(failedVersions) > 0
    ensures d.Some? ==> d.value.buttons == [DialogButton(env.t("common:dismiss"), None)]
    ensures d.Some? ==> d.value.title == env.t("common:deleteSomePipelinesFailed") && d.value.content == Some(Join(messages, "\n\n"))
    ensures d.Some? ==> forall k :: 0 <= k < |messages| ==> Contains(d.value.content.value, messages[k])
  {
    if |failedPipelines| > 0 || DeepCount(failedVersions) > 0 then
      JoinContainsAll(messages, "\n\n");
      Some(Dialog(env.t("common:deleteSomePipelinesFailed"), Some(Join(messages, "\n\n")),
                  [DialogButton(env.t("common:dismiss"), None)], None))
    else None
  }

  /** The callbacks: first the failed pipelines with no pipeline id, then, for every
      key of the selected versions in key order, whatever the failed-version record
      holds under that key (`undefined` when it has no entry). */
  function DeletionCallbacks(selectedVersionIds: Groups, failedPipelines: seq<Id>, failedVersions: Groups)
    : (r: seq<GroupCallback>)
    ensures |r| == |selectedVersionIds| + 1
    ensures r[0] == GroupCallback(None, Some(failedPipelines))
    ensures forall i :: 0 <= i < |selectedVersionIds| ==>
      r[i + 1] == GroupCallback(Some(selectedVersionIds[i].0), Lookup(failedVersions, selectedVersionIds[i].0))
  {
    [GroupCallback(None, Some(failedPipelines))]
      + seq(|selectedVersionIds|, i requires 0 <= i < |selectedVersionIds| =>
              GroupCallback(Some(selectedVersionIds[i].0), Lookup(failedVersions, selectedVersionIds[i].0)))
  }

  /** What the action reports once both phases are done: a success snackbar exactly
      when some pipeline was deleted or fewer versions failed than were selected (the
      versions of deleted pipelines count as deleted), a failure dialog exactly when
      something failed, one callback for the pipelines and one per version group, and
      the list is always refreshed. */
  function Reporting(env: Env, selectedVersionIds: Groups, failedPipelines: seq<Id>, deleted: set<Id>,
                     failedVersions: Groups, messages: seq<string>): (r: Report)
    ensures r.refreshed
    ensures r.snackbar.Some? <==> |deleted| > 0 || DeepCount(failedVersions) < DeepCount(selectedVersionIds)
    ensures r.dialog.Some? <==> |failedPipelines| > 0 || DeepCount(failedVersions) > 0
    ensures |r.callbacks| == |selectedVersionIds| + 1 && r.callbacks[0] == GroupCallback(None, Some(failedPipelines))
  {
    Report(DeletionSnackbar(env, |deleted|, DeepCount(selectedVersionIds) - DeepCount(failedVersions)),
           DeletionFailureDialog(env, failedPipelines, failedVersions, messages),
           DeletionCallbacks(selectedVersionIds, failedPipelines, failedVersions),
           true)
  }

  /** The combined confirmation title "<delete> <phrase>?" states the number of
      pipelines when there are any, and otherwise the number of versions. */
  lemma DeletionTitle(t: string -> string, n: nat, m: nat)
    ensures var lead := t("common:delete") + " ";
      var title := lead + DeletionPhrase(t, n, m, " and ") + "?";
      && |lead| <= |title|
      && (n > 0 ==> LeadingNumber(title[|lead|..]) == n)
      && (n == 0 && m > 0 ==> LeadingNumber(title[|lead|..]) == m)
      && (n == 0 && m == 0 ==> title == lead + "?")
  {
    var lead := t("common:delete") + " ";
    var phrase := DeletionPhrase(t, n, m, " and ");
    AfterLead(lead, phrase, "?");
    DeletionPhraseThenText(t, n, m, " and ", "?");
  }

  /** With both pipelines and versions selected, the title names both, joined by "and". */
  lemma DeletionTitleNamesBoth(t: string -> string, n: nat, m: nat)
    requires n > 0 && m > 0
    ensures t("common:delete") + " " + DeletionPhrase(t, n, m, " and ") + "?"
         == t("common:delete") + " " + Nouns(n, t("common:pipeline"), t("common:pipelines")) + " and "
            + Nouns(m, t("common:pipelineVersion"), t("common:pipelineVersions")) + "?"
  {
    var p := Nouns(n, t("common:pipeline"), t("common:pipelines"));
    var v := Nouns(m, t("common:pipelineVersion"), t("common:pipelineVersions"));
    assert DeletionPhrase(t, n, m, " and ") == p + " and " + v;
  }

  /** Proof helper: what follows a lead in "<lead><body><tail>". */
  lemma AfterLead(lead: string, body: string, tail: string)
    ensures |lead| <= |lead + body + tail|
    ensures (lead + body + tail)[|lead|..] == body + tail
  {
  }

  /** `_dialogDeletePipelinesAndPipelineVersions`: the combined confirmation
      dialog, with cancel passing `false`, delete passing `true`, the backdrop
      passing `false`, no body, and a title stating the number of selected
      pipelines when there are any and otherwise the number of selected versions. */
  function DeletionConfirmDialog(env: Env, selectedIds: seq<Id>, selectedVersionIds: Groups): (d: Dialog)
    ensures d.buttons == [DialogButton(env.t("common:cancel"), Some(false)), DialogButton(env.t("common:delete"), Some(true))]
    ensures d.onClose == Some(false) && d.content == None
    ensures var lead := env.t("common:delete") + " ";
      && |lead| <= |d.title|
      && (|selectedIds| > 0 ==> LeadingNumber(d.title[|lead|..]) == |selectedIds|)
      && (|selectedIds| == 0 && DeepCount(selectedVersionIds) > 0 ==>
            LeadingNumber(d.title[|lead|..]) == DeepCount(selectedVersionIds))
      && (|selectedIds| == 0 && DeepCount(selectedVersionIds) == 0 ==> d.title == lead + "?")
      && (|selectedIds| > 0 && DeepCount(selectedVersionIds) > 0 ==>
            d.title == lead + Nouns(|selectedIds|, env.t("common:pipeline"), env.t("common:pipelines")) + " and "
                       + Nouns(DeepCount(selectedVersionIds), env.t("common:pipelineVersion"), env.t("common:pipelineVersions"))
                       + "?")
  {
    var title := env.t("common:delete") + " " + DeletionPhrase(env.t, |selectedIds|, DeepCount(selectedVersionIds), " and ") + "?";
    DeletionTitle(env.t, |selectedIds|, DeepCount(selectedVersionIds));
    var n, m := |selectedIds|, DeepCount(selectedVersionIds);
    assert n > 0 && m > 0 ==>
      title == env.t("common:delete") + " " + Nouns(n, env.t("common:pipeline"), env.t("common:pipelines")) + " and "
               + Nouns(m, env.t("common:pipelineVersion"), env.t("common:pipelineVersions")) + "?" by {
      if n > 0 && m > 0 {
        DeletionTitleNamesBoth(env.t, n, m);
      }
    }
    Dialog(title, None,
           [DialogButton(env.t("common:cancel"), Some(false)), DialogButton(env.t("common:delete"), Some(true))],
           Some(false))
  }


  /** On the combined confirmation too, cancel and the backdrop pass the same value,
      `false`; only the delete button passes `true`. */
  lemma DeletionCancelIsDismiss(env: Env, selectedIds: seq<Id>, selectedVersionIds: Groups, i: nat)
    ensures var d := DeletionConfirmDialog(env, selectedIds, selectedVersionIds);
      && ClosingValue(d, Pressed(0)) == ClosingValue(d, Backdrop) == Some(false)
      && ClosingValue(d, Pressed(1)) == Some(true)
      && (i >= 2 ==> ClosingValue(d, Pressed(i)) == None)
  {
  }
  /** What one close of the combined deletion dialog did. */
  datatype CompoundOutcome = CompoundOutcome(
    pipelineCalls: seq<Id>,   // pipeline deletions issued
    versionCalls: seq<Id>,    // pipeline-version deletions issued
    failedPipelines: seq<Id>, // `unsuccessfulIds`
    deleted: set<Id>,         // `succeededfulIds`
    failedVersions: Groups,   // `unsuccessfulVersionIds` when it is read
    messages: seq<string>,    // `errorMessages` when the dialog is built
    report: Report)

  const Untouched := CompoundOutcome([], [], [], {}, [], [], Report(None, None, [], false))

  /** `_deletePipelinesAndPipelineVersions` with every version deletion awaited:
      nothing unless confirmed; otherwise every selected pipeline is deleted, only
      the groups of pipelines that were not deleted are attempted, and the report
      is built from the settled results. */
  method DeletePipelinesAndPipelineVersions(env: Env, confirmed: bool, selectedIds: seq<Id>, selectedVersionIds: Groups,
                                            deletePipeline: Id -> CallResult, deleteVersion: Id -> CallResult)
    returns (o: CompoundOutcome)
    ensures !confirmed ==> o == Untouched
    ensures confirmed ==> o.pipelineCalls == selectedIds
    ensures confirmed ==> o.failedPipelines == Failed(deletePipeline, selectedIds)
    ensures confirmed ==> o.deleted == Deleted(deletePipeline, selectedIds)
    ensures confirmed ==> o.versionCalls == Flatten(Without(selectedVersionIds, o.deleted))
    ensures confirmed ==> o.failedVersions == SettledFailures(Without(selectedVersionIds, o.deleted), deleteVersion)
    ensures confirmed ==>
      o.messages == Messages(env.t("common:deletePipelineFailed"), env.t("common:withError"), deletePipeline, selectedIds)
       + Messages(env.t("common:deletePipelineVersionFailed"), env.t("common:withError"), deleteVersion, o.versionCalls)
    ensures confirmed ==>
      o.report == Reporting(env, selectedVersionIds, o.failedPipelines, o.deleted, o.failedVersions, o.messages)
  {
    if !confirmed {
      return Untouched;
    }
    var pipelineCalls, failedPipelines, deleted, pipelineMessages := DeletePipelines(env, selectedIds, deletePipeline);
    var pending := Without(selectedVersionIds, deleted);
    var versionCalls, failedVersions, versionMessages := DeleteVersions(env, pending, deleteVersion);
    var messages := pipelineMessages + versionMessages;
    var report := Reporting(env, selectedVersionIds, failedPipelines, deleted, failedVersions, messages);
    o := CompoundOutcome(pipelineCalls, versionCalls, failedPipelines, deleted, failedVersions, messages, report);
  }

  /** `_deletePipelinesAndPipelineVersions` as written: the version deletions are not
      awaited, so the report is built before any of them settles. */
  method DeletePipelinesAndPipelineVersionsAsWritten(env: Env, confirmed: bool, selectedIds: seq<Id>, selectedVersionIds: Groups,
                                                     deletePipeline: Id -> CallResult)
    returns (o: CompoundOutcome)
    ensures !confirmed ==> o == Untouched
    ensures confirmed ==> o.pipelineCalls == selectedIds
    ensures confirmed ==> o.failedPipelines == Failed(deletePipeline, selectedIds)
    ensures confirmed ==> o.deleted == Deleted(deletePipeline, selectedIds)
    ensures confirmed ==> o.versionCalls == Flatten(Without(selectedVersionIds, o.deleted))
    ensures confirmed ==> o.failedVersions == UnsettledFailures(Without(selectedVersionIds, o.deleted))
    ensures confirmed ==>
      o.messages == Messages(env.t("common:deletePipelineFailed"), env.t("common:withError"), deletePipeline, selectedIds)
    ensures confirmed ==>
      o.report == Reporting(env, selectedVersionIds, o.failedPipelines, o.deleted, o.failedVersions, o.messages)
  {
    if !confirmed {
      return Untouched;
    }
    var pipelineCalls, failedPipelines, deleted, messages := DeletePipelines(env, selectedIds, deletePipeline);
    var pending := Without(selectedVersionIds, deleted);
    var versionCalls, failedVersions := DeleteVersionsUnawaited(pending);
    var report := Reporting(env, selectedVersionIds, failedPipelines, deleted, failedVersions, messages);
    o := CompoundOutcome(pipelineCalls, versionCalls, failedPipelines, deleted, failedVersions, messages, report);
  }

  /** Closing the combined confirmation dialog: only the delete button runs the
      two phases; cancel and the backdrop leave everything untouched. */
  method CloseDeletionConfirmation(env: Env, selectedIds: seq<Id>, selectedVersionIds: Groups,
                                   deletePipeline: Id -> CallResult, deleteVersion: Id -> CallResult, closing: Closing)
    returns (o: CompoundOutcome)
    ensures closing != Pressed(1) ==> o == Untouched
    ensures closing == Pressed(1) ==>
      && o.pipelineCalls == selectedIds
      && o.deleted == Deleted(deletePipeline, selectedIds)
      && o.versionCalls == Flatten(Without(selectedVersionIds, o.deleted))
      && |o.report.callbacks| == |selectedVersionIds| + 1
      && o.report.refreshed
  {
    var d := DeletionConfirmDialog(env, selectedIds, selectedVersionIds);
    var v := ClosingValue(d, closing);
    assert v == if closing == Pressed(1) then Some(true) else if closing.Backdrop? || closing == Pressed(0) then Some(false) else None;
    if v.Some? {
      o := DeletePipelinesAndPipelineVersions(env, v.value, selectedIds, selectedVersionIds, deletePipeline, deleteVersion);
      assert closing == Pressed(1) ==> |o.report.callbacks| == |selectedVersionIds| + 1;
    } else {
      o := Untouched;
    }
  }

  /** The callback for a selected group receives its rejected versions when the group
      was attempted and had versions, and `undefined` when its pipeline was deleted
      (the group was skipped) or it listed no version. */
  lemma GroupCallbackValue(env: Env, d: Groups, failedPipelines: seq<Id>, deleted: set<Id>,
                           api: Id -> CallResult, messages: seq<string>, i: nat)
    requires DistinctKeys(d) && i < |d|
    ensures Reporting(env, d, failedPipelines, deleted, SettledFailures(Without(d, deleted), api), messages).callbacks[i + 1].ids
      == if d[i].0 in deleted || d[i].1 == [] then None else Some(Failed(api, d[i].1))
  {
    var key := d[i].0;
    LookupSettled(Without(d, deleted), api, key);
    LookupWithout(d, deleted, key);
    LookupAt(d, i);
  }

  /** The number of versions the snackbar reports as deleted is never negative: the
      failed versions are at most the versions attempted, which are at most those selected. */
  lemma VersionCountsAddUp(d: Groups, deleted: set<Id>, api: Id -> CallResult)
    ensures var pending := Without(d, deleted);
      DeepCount(SettledFailures(pending, api)) <= |Flatten(pending)| <= DeepCount(d)
  {
    var pending := Without(d, deleted);
    SettledFailuresCount(pending, api);
    DeepCountIsFlattenLength(pending);
  }

  /** Pipelines p1 and p2 with version v1 under p1; deleting p1 resolves and deleting p2
      is rejected: v1 is never attempted, the pipeline callback gets [p2], the callback
      for p1 gets `undefined`, and the list is refreshed. */
  lemma PipelineAndVersionScenario(env: Env, deletePipeline: Id -> CallResult, deleteVersion: Id -> CallResult,
                                   messages: seq<string>)
    requires deletePipeline("p1") == Resolved && deletePipeline("p2").Rejected?
    ensures var ids: seq<Id> := ["p1", "p2"];
      var d: Groups := [("p1", ["v1"])];
      var deleted := Deleted(deletePipeline, ids);
      var pending := Without(d, deleted);
      && deleted == {"p1"}
      && Flatten(pending) == []
      && Failed(deletePipeline, ids) == ["p2"]
      && Reporting(env, d, Failed(deletePipeline, ids), deleted, SettledFailures(pending, deleteVersion), messages).callbacks
         == [GroupCallback(None, Some(["p2"])), GroupCallback(Some("p1"), None)]
      && Reporting(env, d, Failed(deletePipeline, ids), deleted, SettledFailures(pending, deleteVersion), messages).refreshed
  {
    var ids: seq<Id> := ["p1", "p2"];
    assert ids[1..] == ["p2"] && ids[1..][1..] == [];
    assert Failed(deletePipeline, ids) == ["p2"];
    var deleted := Deleted(deletePipeline, ids);
    assert forall x :: x in ids <==> x == "p1" || x == "p2";
    assert deleted == {"p1"};
    var d: Groups := [("p1", ["v1"])];
    assert d[1..] == [];
    assert Without(d, deleted) == [];
  }

  /** With no pipeline selected and one version whose deletion is rejected, the code as
      written reports the version as deleted and opens no failure dialog, and hands the
      group's callback an empty list; once the deletions are awaited, no success is
      reported, the failure dialog opens, and the callback receives the version. */
  lemma UnawaitedVersionFailureGoesUnreported(env: Env, deletePipeline: Id -> CallResult,
                                              deleteVersion: Id -> CallResult, messages: seq<string>)
    requires deleteVersion("v").Rejected?
    ensures var d: Groups := [("p", ["v"])];
      var asWritten := Reporting(env, d, [], {}, UnsettledFailures(Without(d, {})), messages);
      var settled := Reporting(env, d, [], {}, SettledFailures(Without(d, {}), deleteVersion), messages);
      && asWritten.snackbar.Some? && asWritten.dialog.None?
      && asWritten.callbacks[1] == GroupCallback(Some("p"), Some([]))
      && settled.snackbar.None? && settled.dialog.Some?
      && settled.callbacks[1] == GroupCallback(Some("p"), Some(["v"]))
  {
    var d: Groups := [("p", ["v"])];
    assert d[1..] == [];
    assert Without(d, {}) == d;
    assert DeepCount(d) == 1;
    var vs: seq<Id> := ["v"];
    assert vs[1..] == [];
    assert Failed(deleteVersion, vs) == ["v"];
    var unsettled: Groups := [("p", [])];
    assert unsettled[1..] == [];
    assert UnsettledFailures(d) == unsettled && DeepCount(unsettled) == 0;
    assert Lookup(unsettled, "p") == Some([]);
    var settled: Groups := [("p", ["v"])];
    assert settled[1..] == [];
    assert SettledFailures(d, deleteVersion) == settled && DeepCount(settled) == 1;
    assert Lookup(settled, "p") == Some(["v"]);
  }
}
