/** When GET /result, which reads the result key and then the pending marker, answers 404. */
module ClusterLookup {
  import opened Redis
  import opened Cluster
  import opened ClusterRuns
  import opened ClusterVisibility

  lemma {:induction false} ResultWasStored(ss: seq<State>, es: seq<Event>, i: nat, k: nat, id: JobId) returns (j: nat)
    requires Run(ss, es) && i <= k < |ss|
    requires id !in ss[i].broker.results && id in ss[k].broker.results
    ensures i <= j < k && Stores(ss[j], es[j], id)
  {
    assert ss[k] == Do(ss[k - 1], es[k - 1]);
    if id in ss[k - 1].broker.results {
      j := ResultWasStored(ss, es, i, k - 1, id);
    } else {
      j := k - 1;
    }
  }

  /** The SET NX of `id` is executed between i and k. */
  ghost predicate SetBetween(ss: seq<State>, es: seq<Event>, i: nat, k: nat, id: JobId)
    requires Run(ss, es) && k <= |es|
  {
    exists j :: i <= j < k && Executes(ss[j], es[j], SetMarkerNX(id))
  }

  lemma {:induction false} MarkerStaysGone(ss: seq<State>, es: seq<Event>, i: nat, k: nat, id: JobId)
    requires Run(ss, es) && Inv(ss[0]) && i <= k < |ss| && Safe(ss[i], id) && id !in ss[i].broker.markers
    requires forall j | i <= j < k :: !Expires(es[j], id) && !Submits(es[j], id)
    ensures SetBetween(ss, es, i, k, id) || id !in ss[k].broker.markers
  {
    if i < k {
      MarkerStaysGone(ss, es, i, k - 1, id);
      SafeAlong(ss, es, i, k - 1, id);
      RunKeepsInv(ss, es, k - 1);
      SafeBroker(ss[k - 1], es[k - 1], id);
    }
  }

  lemma DeletedIsGone(ss: seq<State>, es: seq<Event>, j: nat, k: nat, id: JobId)
    requires Run(ss, es) && Inv(ss[0]) && j < k < |ss| && Safe(ss[j], id) && Executes(ss[j], es[j], DelMarker(id))
    requires forall i | j <= i < k :: !Expires(es[i], id) && !Submits(es[i], id)
    ensures SetBetween(ss, es, j + 1, k, id) || id !in ss[k].broker.markers
  {
    RunKeepsInv(ss, es, j);
    assert ss[j + 1] == Do(ss[j], es[j]);
    SafeStep(ss[j], es[j], id);
    MarkerStaysGone(ss, es, j + 1, k, id);
  }

  lemma SetIsThere(ss: seq<State>, es: seq<Event>, i: nat, id: JobId)
    requires Run(ss, es) && i < |es| && Executes(ss[i], es[i], SetMarkerNX(id))
    ensures id in ss[i + 1].broker.markers
  {
    assert ss[i + 1] == Do(ss[i], es[i]);
  }

  lemma GoneWasNotSet(ss: seq<State>, es: seq<Event>, j: nat, k: nat, id: JobId)
    requires Run(ss, es) && j < k < |ss| && forall n | j < n <= k :: id !in ss[n].broker.markers
    ensures !SetBetween(ss, es, j + 1, k, id)
  {
    if i :| j + 1 <= i < k && Executes(ss[i], es[i], SetMarkerNX(id)) {
      SetIsThere(ss, es, i, id);
    }
  }

  /** GET /result reads the result key at `a` and the marker at `b`. If it found no result for a job in a
      safe state, it answers 404 exactly if the marker was deleted between its two reads and not set
      again, and then the result was stored between them, too. */
  lemma NotFoundIff(ss: seq<State>, es: seq<Event>, a: nat, b: nat, id: JobId)
    requires RunFromInit(ss, es) && a <= b < |ss| && Safe(ss[a], id) && id !in ss[a].broker.results
    requires forall j | a <= j < b :: !Expires(es[j], id) && !Submits(es[j], id)
    ensures id !in ss[b].broker.markers
       <==> exists j :: a <= j < b && Executes(ss[j], es[j], DelMarker(id)) && !SetBetween(ss, es, j + 1, b, id)
    ensures id !in ss[b].broker.markers ==> exists j :: a <= j < b && Stores(ss[j], es[j], id)
  {
    InitInv(ss[0]);
    SafeAlong(ss, es, a, b, id);
    if id !in ss[b].broker.markers {
      var i := ResultWasStored(ss, es, a, b, id);
      var j := MarkerWasCleared(ss, es, a, b, id);
      assert !Expires(es[j], id);
      GoneWasNotSet(ss, es, j, b, id);
    }
    if j :| a <= j < b && Executes(ss[j], es[j], DelMarker(id)) && !SetBetween(ss, es, j + 1, b, id) {
      SafeAlong(ss, es, a, j, id);
      DeletedIsGone(ss, es, j, b, id);
    }
  }
}
