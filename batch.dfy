/** The confirm-and-execute path of the toolbar (`_dialogClosed`): once the user
    confirms, one API call per selected id, the rejected ids and one error message
    for each, then the success snackbar, the list refresh, the failure dialog and
    the caller's callback. */
module Batch {
  import opened Common
  import opened Text

  /** The selected ids whose call is rejected, in selection order (`unsuccessfulIds`). */
  function Failed(api: Id -> CallResult, ids: seq<Id>): (r: seq<Id>)
    ensures |r| <= |ids|
    ensures forall x :: x in r ==> x in ids && api(x).Rejected?
  {
    if ids == [] then []
    else (if api(ids[0]).Rejected? then [ids[0]] else []) + Failed(api, ids[1..])
  }

  /** The message reported for one rejected call:
      `<prefix>: <id> <withError>: "<error>"`. */
  function FailureMessage(prefix: string, withError: string, id: Id, error: string): (m: string)
    ensures Contains(m, id) && Contains(m, error)
  {
    var m := prefix + ": " + id + " " + withError + ": \"" + error + "\"";
    ContainsMiddle(prefix + ": ", id, " " + withError + ": \"" + error + "\"");
    assert m == (prefix + ": ") + id + (" " + withError + ": \"" + error + "\"");
    ContainsMiddle(prefix + ": " + id + " " + withError + ": \"", error, "\"");
    m
  }

  /** The messages collected for a batch (`errorMessages`), one per rejected call,
      each naming the id it is about. */
  function Messages(prefix: string, withError: string, api: Id -> CallResult, ids: seq<Id>): (r: seq<string>)
    ensures |r| <= |ids|
    ensures forall m :: m in r ==> exists id :: id in ids && Contains(m, id)
  {
    if ids == [] then []
    else
      (match api(ids[0])
       case Resolved => []
       case Rejected(e) => [FailureMessage(prefix, withError, ids[0], e)])
      + Messages(prefix, withError, api, ids[1..])
  }

  lemma {:induction false} FailedAppend(api: Id -> CallResult, a: seq<Id>, b: seq<Id>)
    ensures Failed(api, a + b) == Failed(api, a) + Failed(api, b)
  {
    if a == [] {
      assert a + b == b;
    } else {
      var head := if api(a[0]).Rejected? then [a[0]] else [];
      assert (a + b)[0] == a[0];
      assert (a + b)[1..] == a[1..] + b;
      FailedAppend(api, a[1..], b);
      calc {
        Failed(api, a + b);
        head + Failed(api, a[1..] + b);
        head + (Failed(api, a[1..]) + Failed(api, b));
        (head + Failed(api, a[1..])) + Failed(api, b);
      }
    }
  }

  lemma {:induction false} MessagesAppend(prefix: string, withError: string, api: Id -> CallResult, a: seq<Id>, b: seq<Id>)
    ensures Messages(prefix, withError, api, a + b)
            == Messages(prefix, withError, api, a) + Messages(prefix, withError, api, b)
  {
    if a == [] {
      assert a + b == b;
    } else {
      assert (a + b)[1..] == a[1..] + b;
      MessagesAppend(prefix, withError, api, a[1..], b);
    }
  }

  /** Taking the next selected id into account. */
  lemma ExecuteStep(api: Id -> CallResult, ids: seq<Id>, i: nat, prefix: string, withError: string)
    requires i < |ids|
    ensures ids[..i + 1] == ids[..i] + [ids[i]]
    ensures Failed(api, ids[..i + 1]) == Failed(api, ids[..i]) + (if api(ids[i]).Rejected? then [ids[i]] else [])
    ensures Messages(prefix, withError, api, ids[..i + 1]) == Messages(prefix, withError, api, ids[..i])
      + (if api(ids[i]).Rejected? then [FailureMessage(prefix, withError, ids[i], api(ids[i]).error)] else [])
  {
    var last := [ids[i]];
    assert ids[..i + 1] == ids[..i] + last;
    assert last[1..] == [];
    FailedAppend(api, ids[..i], last);
    MessagesAppend(prefix, withError, api, ids[..i], last);
  }

  /** An id is reported as failed exactly when it was selected and its call was rejected. */
  lemma {:induction false} FailedMembership(api: Id -> CallResult, ids: seq<Id>)
    ensures forall x :: x in Failed(api, ids) <==> x in ids && api(x).Rejected?
  {
    if ids != [] {
      FailedMembership(api, ids[1..]);
      assert forall x :: x in ids <==> x == ids[0] || x in ids[1..];
    }
  }

  /** Each id is reported as failed as many times as it was selected, or never. */
  lemma {:induction false} FailedMultiplicity(api: Id -> CallResult, ids: seq<Id>, x: Id)
    ensures multiset(Failed(api, ids))[x] == if api(x).Rejected? then multiset(ids)[x] else 0
  {
    if ids != [] {
      FailedMultiplicity(api, ids[1..], x);
      assert ids == [ids[0]] + ids[1..];
      assert multiset(ids) == multiset([ids[0]]) + multiset(ids[1..]);
    }
  }

  /** Selections with the same ids, in any order, have the same failed ids. */
  lemma FailedSameMultiset(api: Id -> CallResult, a: seq<Id>, b: seq<Id>)
    requires multiset(a) == multiset(b)
    ensures multiset(Failed(api, a)) == multiset(Failed(api, b))
  {
    forall x ensures multiset(Failed(api, a))[x] == multiset(Failed(api, b))[x] {
      FailedMultiplicity(api, a, x);
      FailedMultiplicity(api, b, x);
    }
  }

  /** The order in which the calls are issued or settle does not change which ids fail
      nor how many calls succeed. */
  lemma FailedOrderIrrelevant(api: Id -> CallResult, a: seq<Id>, b: seq<Id>)
    requires multiset(a) == multiset(b)
    ensures multiset(Failed(api, a)) == multiset(Failed(api, b))
    ensures |a| - |Failed(api, a)| == |b| - |Failed(api, b)|
  {
    FailedSameMultiset(api, a, b);
    assert |a| == |multiset(a)| && |b| == |multiset(b)|;
    assert |Failed(api, a)| == |multiset(Failed(api, a))| && |Failed(api, b)| == |multiset(Failed(api, b))|;
  }

  /** No id fails exactly when every selected call resolves. */
  lemma AllSucceeded(api: Id -> CallResult, ids: seq<Id>)
    ensures Failed(api, ids) == [] <==> forall x :: x in ids ==> api(x).Resolved?
  {
    FailedMembership(api, ids);
    if Failed(api, ids) != [] {
      assert Failed(api, ids)[0] in Failed(api, ids);
    }
  }

  /** One message per failed id, in the same order, naming that id and its error. */
  lemma {:induction false} MessagesFollowFailures(prefix: string, withError: string, api: Id -> CallResult, ids: seq<Id>)
    ensures |Messages(prefix, withError, api, ids)| == |Failed(api, ids)|
    ensures forall k :: 0 <= k < |Failed(api, ids)| ==>
      Messages(prefix, withError, api, ids)[k]
        == FailureMessage(prefix, withError, Failed(api, ids)[k], api(Failed(api, ids)[k]).error)
  {
    if ids != [] {
      MessagesFollowFailures(prefix, withError, api, ids[1..]);
    }
  }

  /** Issues one call per id, in order, and collects the rejected ids and their messages. */
  method Execute(api: Id -> CallResult, ids: seq<Id>, prefix: string, withError: string)
    returns (calls: seq<Id>, failed: seq<Id>, messages: seq<string>)
    ensures calls == ids
    ensures failed == Failed(api, ids)
    ensures messages == Messages(prefix, withError, api, ids)
  {
    calls, failed, messages := [], [], [];
    for i := 0 to |ids|
      invariant calls == ids[..i]
      invariant failed == Failed(api, ids[..i])
      invariant messages == Messages(prefix, withError, api, ids[..i])
    {
      ExecuteStep(api, ids, i, prefix, withError);
      calls := calls + [ids[i]];
      match api(ids[i]) {
        case Rejected(e) =>
          failed := failed + [ids[i]];
          messages := messages + [FailureMessage(prefix, withError, ids[i], e)];
        case Resolved =>
      }
    }
    assert ids[..|ids|] == ids;
  }

  /** What the caller's callback receives: the failed ids and whether there were none. */
  datatype BatchCallback = BatchCallback(ids: seq<Id>, success: bool)

  /** What one close of a confirmation dialog did. */
  datatype BatchOutcome = BatchOutcome(
    calls: seq<Id>,               // API calls issued, one per selected id
    failed: seq<Id>,              // `unsuccessfulIds`
    messages: seq<string>,        // `errorMessages`
    snackbar: Option<string>,     // message of the success snackbar, when one is shown
    refreshed: bool,              // whether the list refresh was called
    dialog: Option<Dialog>,       // the failure dialog, when one is opened
    callback: Option<BatchCallback>)  // the callback's arguments, when it is called

  const Untouched := BatchOutcome([], [], [], None, false, None, None)

  /** The lead of every failure message of a batch: "<failedTo> <verb> <resource>". */
  function FailurePrefix(env: Env, actionName: string, resourceName: string): string {
    env.t("common:failedTo") + " " + Lower(actionName) + " " + resourceName
  }

  /** The snackbar text after `n` successful calls: it names the current resource
      as "this", and otherwise states the count `n`. */
  function SuccessMessage(env: Env, actionName: string, resourceName: string, useCurrentResource: bool, n: nat): (m: string)
    ensures var lead := actionName + " " + env.t("common:succeededFor") + " ";
      && (useCurrentResource ==> m == lead + env.t("common:this") + " " + resourceName)
      && (!useCurrentResource ==> |lead| <= |m| && LeadingNumber(m[|lead|..]) == n)
  {
    var lead := actionName + " " + env.t("common:succeededFor") + " ";
    if useCurrentResource then
      lead + env.t("common:this") + " " + resourceName
    else
      Counted(lead, n, " " + resourceName + env.s(n))
  }

  /** The dialog listing the failures: a single dismiss button, every message in its
      body, and a title that states the number of failed ids unless it is about the
      current resource. */
  function FailureDialog(env: Env, actionName: string, resourceName: string, useCurrentResource: bool,
                         failed: seq<Id>, messages: seq<string>): (d: Dialog)
    ensures d.buttons == [DialogButton(env.t("common:dismiss"), None)] && d.onClose == None
    ensures d.content == Some(Join(messages, "\n\n"))
    ensures forall k :: 0 <= k < |messages| ==> Contains(d.content.value, messages[k])
    ensures var lead := env.t("common:failedTo") + " " + Lower(actionName) + " ";
      && (useCurrentResource ==> d.title == lead + resourceName)
      && (!useCurrentResource ==> |lead| <= |d.title| && LeadingNumber(d.title[|lead|..]) == |failed|)
  {
    var lead := env.t("common:failedTo") + " " + Lower(actionName) + " ";
    var n := |failed|;
    JoinContainsAll(messages, "\n\n");
    var title :=
      if useCurrentResource then lead + resourceName
      else Counted(lead, n, " " + resourceName + env.s(n));
    Dialog(title, Some(Join(messages, "\n\n")), [DialogButton(env.t("common:dismiss"), None)], None)
  }

  /** `_dialogClosed`: nothing at all unless confirmed; otherwise every selected id
      is called, a snackbar is shown exactly when some call succeeded, the list is
      refreshed exactly when some call succeeded outside current-resource mode, a
      failure dialog is opened exactly when some call failed, and the callback is
      called once with the failed ids. */
  method DialogClosed(env: Env, confirmed: bool, selectedIds: seq<Id>, actionName: string, resourceName: string,
                      useCurrentResource: bool, api: Id -> CallResult)
    returns (o: BatchOutcome)
    ensures !confirmed ==> o == Untouched
    ensures confirmed ==> o.calls == selectedIds
    ensures confirmed ==> o.failed == Failed(api, selectedIds)
    ensures confirmed ==>
      o.messages == Messages(FailurePrefix(env, actionName, resourceName), env.t("common:withError"), api, selectedIds)
    ensures confirmed ==> (o.snackbar.Some? <==> |o.failed| < |selectedIds|)
    ensures o.snackbar.Some? ==>
      o.snackbar.value == SuccessMessage(env, actionName, resourceName, useCurrentResource, |selectedIds| - |o.failed|)
    ensures confirmed ==> (o.refreshed <==> |o.failed| < |selectedIds| && !useCurrentResource)
    ensures confirmed ==> (o.dialog.Some? <==> |o.failed| > 0)
    ensures o.dialog.Some? ==>
      o.dialog.value == FailureDialog(env, actionName, resourceName, useCurrentResource, o.failed, o.messages)
    ensures confirmed ==> o.callback == Some(BatchCallback(o.failed, o.failed == []))
  {
    if !confirmed {
      return Untouched;
    }
    var calls, failed, messages :=
      Execute(api, selectedIds, FailurePrefix(env, actionName, resourceName), env.t("common:withError"));
    var successfulOps := |selectedIds| - |failed|;
    var snackbar: Option<string> := None;
    var refreshed := false;
    if successfulOps > 0 {
      snackbar := Some(SuccessMessage(env, actionName, resourceName, useCurrentResource, successfulOps));
      if !useCurrentResource {
        refreshed := true;
      }
    }
    var dialog: Option<Dialog> := None;
    if |failed| > 0 {
      dialog := Some(FailureDialog(env, actionName, resourceName, useCurrentResource, failed, messages));
    }
    o := BatchOutcome(calls, failed, messages, snackbar, refreshed, dialog, Some(BatchCallback(failed, |failed| == 0)));
  }

  /** Two runs selected, the first deletion resolves, the second is rejected with
      "boom": one run failed, its message names it and the error, one call succeeded. */
  lemma DeleteRunScenario(env: Env, api: Id -> CallResult)
    requires api("run-1") == Resolved && api("run-2") == Rejected("boom")
    ensures Failed(api, ["run-1", "run-2"]) == ["run-2"]
    ensures 2 - |Failed(api, ["run-1", "run-2"])| == 1
    ensures var ms := Messages(FailurePrefix(env, env.t("common:delete"), "run"), env.t("common:withError"), api, ["run-1", "run-2"]);
      |ms| == 1 && Contains(ms[0], "run-2") && Contains(ms[0], "boom")
  {
    var ids: seq<Id> := ["run-1", "run-2"];
    assert ids[1..] == ["run-2"];
    assert ids[1..][1..] == [];
    MessagesFollowFailures(FailurePrefix(env, env.t("common:delete"), "run"), env.t("common:withError"), api, ids);
  }
}
