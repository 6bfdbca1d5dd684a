/**
 The queue of pods still to be scheduled.  A pod that fails goes to the back; the queue
 gives up once every pod in it has failed since the last time anything changed.
 */
module SchedulerQueue {
  import opened Common
  import opened Pods
  import opened PreferenceRelaxation

  type Lengths = map<UID, nat>

  function LastLen(lastLen: Lengths, uid: UID): nat { if uid in lastLen then lastLen[uid] else 0 }

  /** No pod can be tried again without repeating a failure. */
  predicate Stale(uids: seq<UID>, lastLen: Lengths) { uids == [] || LastLen(lastLen, uids[0]) == |uids| }

  class Queue {
    var pods: seq<LivePod>
    var lastLen: Lengths

    constructor (pods: seq<LivePod>)
      ensures this.pods == pods && lastLen == map[]
    {
      this.pods, lastLen := pods, map[];
    }

    method Pop() returns (next: Option<LivePod>)
      modifies this
      ensures next.None? <==> Stale(UIDs(old(pods)), old(lastLen))
      ensures next.None? ==> pods == old(pods)
      ensures next.Some? ==> old(pods) != [] && next.value == old(pods)[0] && pods == old(pods)[1..]
      ensures lastLen == old(lastLen)
    {
      if pods == [] {
        return None;
      }
      var p := pods[0];
      if LastLen(lastLen, p.uid) == |pods| {
        return None;
      }
      pods := pods[1..];
      next := Some(p);
    }

    method Push(pod: LivePod, relaxed: bool)
      modifies this
      ensures pods == old(pods) + [pod]
      ensures lastLen == if relaxed then map[] else old(lastLen)[pod.uid := |pods|]
    {
      pods := pods + [pod];
      if relaxed {
        lastLen := map[];
      } else {
        lastLen := lastLen[pod.uid := |pods|];
      }
    }
  }

  function UIDs(pods: seq<LivePod>): seq<UID> {
    seq(|pods|, i requires 0 <= i < |pods| => pods[i].uid)
  }

  // ----- What the recorded lengths mean

  /** Exactly the last `tried` pods have failed since anything changed. */
  predicate Tried(uids: seq<UID>, lastLen: Lengths, tried: nat) {
    && tried <= |uids| && NoDuplicates(uids)
    && (forall i :: 0 <= i < |uids| ==> (LastLen(lastLen, uids[i]) == |uids| <==> i >= |uids| - tried))
    && forall u :: u in lastLen ==> lastLen[u] >= |uids|
  }

  /** The queue gives up exactly when all of its pods have been tried. */
  lemma StaleIffAllTried(uids: seq<UID>, lastLen: Lengths, tried: nat)
    requires Tried(uids, lastLen, tried)
    ensures Stale(uids, lastLen) <==> tried == |uids|
  {}

  lemma NothingTried(uids: seq<UID>)
    requires NoDuplicates(uids)
    ensures Tried(uids, map[], 0)
  {}

  lemma RotateDistinct(uids: seq<UID>)
    requires NoDuplicates(uids) && uids != []
    ensures NoDuplicates(uids[1..] + [uids[0]])
  {}

  /** A pod that fails joins those tried. */
  lemma FailedIsTried(uids: seq<UID>, lastLen: Lengths, tried: nat)
    requires Tried(uids, lastLen, tried) && tried < |uids|
    ensures Tried(uids[1..] + [uids[0]], lastLen[uids[0] := |uids|], tried + 1)
  {
    RotateDistinct(uids);
    var uids', lastLen' := uids[1..] + [uids[0]], lastLen[uids[0] := |uids|];
    forall i | 0 <= i < |uids'| ensures LastLen(lastLen', uids'[i]) == |uids'| <==> i >= |uids'| - (tried + 1) {
      if i < |uids| - 1 {
        assert uids'[i] == uids[i + 1] && uids[i + 1] != uids[0];
      }
    }
  }

  /** A pod that is placed shortens the queue, so every pod left is worth another try. */
  lemma PlacedResets(uids: seq<UID>, lastLen: Lengths, tried: nat)
    requires Tried(uids, lastLen, tried) && uids != []
    ensures Tried(uids[1..], lastLen, 0)
  {}

  /** So does a pod that was relaxed. */
  lemma RelaxedResets(uids: seq<UID>)
    requires NoDuplicates(uids) && uids != []
    ensures Tried(uids[1..] + [uids[0]], map[], 0)
  {
    RotateDistinct(uids);
  }
}
