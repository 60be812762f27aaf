/**
 When a worker charges for a printer that was away: probe results arrive one by one
 and two variables remember the rest.
 */
module Outage {
  import opened Basics

  datatype Probe = Probe(ok: bool, at: nat)

  /** A clock that went back has not advanced. */
  function Elapsed(since: nat, now: nat): (r: nat)
    ensures since <= now ==> since + r == now
    ensures now < since ==> r == 0
  {
    if now < since then 0 else now - since
  }

  /** Results `i` up to `j` are an outage as seen from outside: failures only, right
      after one success and right before another. */
  ghost predicate IsOutage(rs: seq<Probe>, i: nat, j: nat) {
    && 0 < i < j < |rs| && rs[i - 1].ok && rs[j].ok
    && forall k :: i <= k < j ==> !rs[k].ok
  }

  /** The outages that lasted, from the first failure to the success, long enough. */
  ghost function LongOutages(rs: seq<Probe>, debounce: nat): set<(nat, nat)> {
    set i: nat, j: nat | 0 <= i < |rs| && 0 <= j < |rs| && IsOutage(rs, i, j) && Elapsed(rs[i].at, rs[j].at) >= debounce
      :: (i, j)
  }

  /** Failures only since result `i`, right after a success. */
  ghost predicate DownSince(rs: seq<Probe>, i: nat) {
    0 < i < |rs| && rs[i - 1].ok && forall k :: i <= k < |rs| ==> !rs[k].ok
  }

  lemma ExtendsWithoutSuccess(rs: seq<Probe>, r: Probe, debounce: nat)
    requires !r.ok || rs == [] || rs[|rs| - 1].ok || (forall k :: 0 <= k < |rs| ==> !rs[k].ok)
    ensures LongOutages(rs + [r], debounce) == LongOutages(rs, debounce)
  {
    var more := rs + [r];
    forall i: nat, j: nat ensures IsOutage(more, i, j) <==> IsOutage(rs, i, j) {
      if IsOutage(rs, i, j) {
        assert forall k :: i <= k < j ==> more[k] == rs[k];
      }
      if 0 < i < j == |rs| {
        assert more[i - 1] == rs[i - 1] && more[j - 1] == rs[j - 1];
      } else if IsOutage(more, i, j) {
        assert forall k :: i <= k < j ==> rs[k] == more[k];
      }
    }
    assert forall k :: 0 <= k < |rs| ==> more[k] == rs[k];
  }

  lemma ExtendsWithSuccess(rs: seq<Probe>, r: Probe, since: nat, debounce: nat)
    requires r.ok && DownSince(rs, since)
    ensures LongOutages(rs + [r], debounce)
         == LongOutages(rs, debounce)
            + (if Elapsed(rs[since].at, r.at) >= debounce then {(since, |rs|)} else {})
  {
    var more := rs + [r];
    forall i: nat, j: nat
      ensures IsOutage(more, i, j) <==> IsOutage(rs, i, j) || (i == since && j == |rs|)
    {
      if IsOutage(rs, i, j) {
        assert forall k :: i <= k < j ==> more[k] == rs[k];
      }
      if 0 < i < j == |rs| {
        assert more[i - 1] == rs[i - 1] && more[since - 1] == rs[since - 1];
      } else if IsOutage(more, i, j) {
        assert forall k :: i <= k < j ==> rs[k] == more[k];
      }
    }
    assert forall k :: 0 <= k < |rs| ==> more[k] == rs[k];
  }

  /** What the two variables say about the results so far. */
  ghost predicate Remembers(rs: seq<Probe>, ever: bool, down: Option<nat>, since: nat) {
    && (ever <==> exists i :: 0 <= i < |rs| && rs[i].ok)
    && (ever ==> rs[|rs| - 1].ok || down.Some?)
    && (down.Some? ==> DownSince(rs, since) && down == Some(rs[since].at))
  }

  lemma AfterSuccess(rs: seq<Probe>, r: Probe, since: nat)
    requires r.ok
    ensures Remembers(rs + [r], true, None, since)
  {
    assert (rs + [r])[|rs|].ok;
  }

  lemma AfterFailure(rs: seq<Probe>, r: Probe, ever: bool, down: Option<nat>, since: nat)
    requires !r.ok && Remembers(rs, ever, down, since)
    ensures var starts := ever && down.None?;
            Remembers(rs + [r], ever, if starts then Some(r.at) else down, if starts then |rs| else since)
  {
    var more := rs + [r];
    assert forall i :: 0 <= i < |rs| ==> more[i] == rs[i];
    if ever {
      var i :| 0 <= i < |rs| && rs[i].ok;
      assert more[i].ok;
    }
  }

  /** A success is charged exactly when it ends a long outage. */
  lemma SuccessCharges(rs: seq<Probe>, r: Probe, ever: bool, down: Option<nat>, since: nat, debounce: nat)
    requires r.ok && Remembers(rs, ever, down, since)
    ensures |LongOutages(rs + [r], debounce)|
         == |LongOutages(rs, debounce)| + (if ever && down.Some? && Elapsed(down.value, r.at) >= debounce then 1 else 0)
  {
    if ever && down.Some? {
      ExtendsWithSuccess(rs, r, since, debounce);
      assert (since, |rs|) !in LongOutages(rs, debounce);
    } else {
      ExtendsWithoutSuccess(rs, r, debounce);
    }
  }

  class ProbeLoop {
    const debounce: nat
    var everConnected: bool
    var disconnectedAt: Option<nat>
    var losses: nat
    ghost var seen: seq<Probe>
    ghost var since: nat

    ghost predicate Valid()
      reads this
    {
      Remembers(seen, everConnected, disconnectedAt, since) && losses == |LongOutages(seen, debounce)|
    }

    constructor (debounce: nat)
      ensures Valid() && seen == [] && losses == 0 && this.debounce == debounce
    {
      this.debounce := debounce;
      everConnected, disconnectedAt, losses := false, None, 0;
      seen, since := [], 0;
    }

    /** One probe: however they arrive, the number of charges so far is the number of
        long outages in the whole sequence of results. */
    method Probed(ok: bool, now: nat)
      requires Valid()
      modifies this
      ensures Valid() && seen == old(seen) + [Probe(ok, now)]
      ensures losses == |LongOutages(seen, debounce)|
    {
      var r := Probe(ok, now);
      if ok {
        SuccessCharges(seen, r, everConnected, disconnectedAt, since, debounce);
        AfterSuccess(seen, r, since);
        if everConnected && disconnectedAt.Some? && Elapsed(disconnectedAt.value, now) >= debounce {
          losses := losses + 1;
        }
        everConnected := true;
        disconnectedAt := None;
      } else {
        ExtendsWithoutSuccess(seen, r, debounce);
        AfterFailure(seen, r, everConnected, disconnectedAt, since);
        if everConnected && disconnectedAt.None? {
          disconnectedAt := Some(now);
          since := |seen|;
        }
      }
      seen := seen + [r];
    }
  }
}
