/** The periodic refresh scheduler of the frontend. A refresh aborts whatever is pending, starts a
    fetch with a fresh abort signal and, when the fetch completes, arms one timer that refreshes
    again after `interval` milliseconds.

    Promises and timers are modelled as explicit events: `Resolve` and `Reject` are the completion
    of a fetch, `Fire` is a timer going off. Abort controllers and timer handles are numbers drawn
    from one counter; the environment's state (aborted controllers, armed timers, fetches in
    flight, errors reported) is kept in fields beside the scheduler's own two fields. */
module Refresh {
  import opened Wrappers

  /** The connect-RPC error codes the scheduler distinguishes. */
  datatype Code = Canceled | Other(name: string)

  datatype ConnectError = ConnectError(code: Code, message: string)

  function OptSet(o: Option<nat>): (s: set<nat>)
    ensures o.None? <==> s == {}
    ensures o.Some? ==> s == {o.value}
  {
    if o.Some? then {o.value} else {}
  }

  class Refresher {
    /** The scheduler's own state: the controller of the last fetch and the armed timer. */
    var abortController: Option<nat>
    var refreshCancel: Option<nat>
    const interval: int

    /** Environment: controllers whose signal was aborted. */
    var aborted: set<nat>
    /** Environment: armed timers, by handle, with their delay. */
    var timers: map<nat, int>
    /** Environment: fetches started and not yet completed, by controller. */
    var pending: set<nat>
    /** Environment: the signals handed to `handler.refresh`, in order. */
    var fetches: seq<nat>
    /** Environment: the errors handed to `handler.onError`, in order. */
    var errors: seq<ConnectError>
    /** The next controller or timer handle; browsers never hand out timer handle 0. */
    var nextId: nat

    /** The fetches in flight whose signal was not aborted. */
    function LiveFetches(): set<nat>
      reads this
    {
      pending - aborted
    }

    /** The scheduler's invariant: at most one timer is armed and it is the one `abort()` can
        clear; at most one live fetch exists and it is the current controller's; while a live
        fetch runs no timer is armed. */
    ghost predicate Valid()
      reads this
    {
      && nextId > 0
      && (forall id :: id in aborted ==> 0 < id < nextId)
      && (forall id :: id in pending ==> 0 < id < nextId)
      && (forall id :: id in timers ==> 0 < id < nextId)
      && (abortController.Some? ==> 0 < abortController.value < nextId)
      && (refreshCancel.Some? ==> 0 < refreshCancel.value < nextId)
      && timers.Keys <= OptSet(refreshCancel)
      && LiveFetches() <= OptSet(abortController)
      && (LiveFetches() != {} ==> timers == map[] && refreshCancel == None)
    }

    constructor (interval: int := 5000)
      ensures Valid()
      ensures this.interval == interval
      ensures abortController == None && refreshCancel == None
      ensures aborted == {} && timers == map[] && pending == {} && fetches == [] && errors == []
    {
      this.interval := interval;
      abortController := None;
      refreshCancel := None;
      aborted := {};
      timers := map[];
      pending := {};
      fetches := [];
      errors := [];
      nextId := 1;
    }

    /** `abort()`: signal the current controller, if any, and clear the armed timer. */
    method Abort()
      requires Valid()
      modifies this
      ensures Valid()
      ensures aborted == old(aborted) + OptSet(old(abortController))
      ensures timers == old(timers) - OptSet(old(refreshCancel))
      ensures timers == map[] && refreshCancel == None
      ensures LiveFetches() == {}
      ensures abortController == old(abortController) && pending == old(pending) && nextId == old(nextId)
      ensures fetches == old(fetches) && errors == old(errors)
    {
      if abortController.Some? {
        aborted := aborted + {abortController.value};
      }
      if refreshCancel.Some? {
        timers := timers - {refreshCancel.value};
        refreshCancel := None;
      }
    }

    /** `afterRefresh()`: forget the controller and arm a timer for `interval`. */
    method AfterRefresh()
      modifies this
      ensures abortController == None
      ensures refreshCancel == Some(old(nextId))
      ensures timers == old(timers)[old(nextId) := interval]
      ensures nextId == old(nextId) + 1
      ensures aborted == old(aborted) && pending == old(pending)
      ensures fetches == old(fetches) && errors == old(errors)
    {
      abortController := None;
      timers := timers[nextId := interval];
      refreshCancel := Some(nextId);
      nextId := nextId + 1;
    }

    /** `refresh()` up to its `await`: abort, then start a fetch with a fresh controller. */
    method Refresh()
      requires Valid()
      modifies this
      ensures Valid()
      ensures aborted == old(aborted) + OptSet(old(abortController))
      ensures abortController == Some(old(nextId))
      ensures refreshCancel == None && timers == map[]
      ensures pending == old(pending) + {old(nextId)}
      ensures fetches == old(fetches) + [old(nextId)]
      ensures errors == old(errors) && nextId == old(nextId) + 1
      ensures LiveFetches() == {old(nextId)}
    {
      Abort();
      var c := nextId;
      assert c !in aborted && c !in pending;
      nextId := nextId + 1;
      abortController := Some(c);
      pending := pending + {c};
      fetches := fetches + [c];
      assert LiveFetches() == {c} == OptSet(abortController);
    }

    /** The fetch started with controller `c` resolves: re-arm. Only a fetch that was not
        aborted is known to keep the invariant. */
    method Resolve(c: nat)
      requires Valid() && c in pending
      modifies this
      ensures c in old(LiveFetches()) ==> Valid() && LiveFetches() == {}
      ensures pending == old(pending) - {c} && nextId == old(nextId) + 1
      ensures abortController == None && refreshCancel == Some(old(nextId))
      ensures timers == old(timers)[old(nextId) := interval]
      ensures c in old(LiveFetches()) ==> timers == map[old(nextId) := interval]
      ensures aborted == old(aborted) && fetches == old(fetches) && errors == old(errors)
    {
      pending := pending - {c};
      AfterRefresh();
    }

    /** The fetch started with controller `c` rejects with `err`. A Canceled error is ignored;
        any other is reported once and the scheduler re-arms as on success. An aborted fetch is
        known to keep the invariant only when it rejects with Canceled. */
    method Reject(c: nat, err: ConnectError)
      requires Valid() && c in pending
      modifies this
      ensures (c in old(LiveFetches()) || err.code == Canceled) ==> Valid()
      ensures c in old(LiveFetches()) ==> LiveFetches() == {}
      ensures pending == old(pending) - {c}
      ensures aborted == old(aborted) && fetches == old(fetches)
      ensures nextId == old(nextId) + (if err.code == Canceled then 0 else 1)
      ensures err.code == Canceled ==>
                && errors == old(errors) && timers == old(timers)
                && abortController == old(abortController) && refreshCancel == old(refreshCancel)
      ensures err.code != Canceled ==>
                && errors == old(errors) + [err]
                && abortController == None && refreshCancel == Some(old(nextId))
                && timers == old(timers)[old(nextId) := interval]
    {
      pending := pending - {c};
      if err.code == Canceled {
        return;
      }
      errors := errors + [err];
      AfterRefresh();
    }

    /** The armed timer `t` goes off and calls `refresh()`. */
    method Fire(t: nat)
      requires Valid() && t in timers
      modifies this
      ensures Valid()
      ensures old(refreshCancel) == Some(t)
      ensures aborted == old(aborted) + OptSet(old(abortController))
      ensures abortController == Some(old(nextId)) && refreshCancel == None && timers == map[]
      ensures pending == old(pending) + {old(nextId)} && fetches == old(fetches) + [old(nextId)]
      ensures errors == old(errors)
    {
      timers := timers - {t};
      Refresh();
    }
  }

  /** Under the invariant at most one timer is armed. */
  lemma AtMostOneTimer(r: Refresher)
    requires r.Valid()
    ensures |r.timers| <= 1
    ensures r.refreshCancel.None? ==> r.timers == map[]
  {
    var keys := r.timers.Keys;
    if r.refreshCancel.Some? {
      assert keys <= {r.refreshCancel.value};
      if keys != {} {
        assert keys == {r.refreshCancel.value};
      }
    } else {
      assert keys == {};
    }
    assert |r.timers| == |keys|;
  }

  /** Under the invariant at most one fetch is live. */
  lemma AtMostOneLiveFetch(r: Refresher)
    requires r.Valid()
    ensures |r.LiveFetches()| <= 1
    ensures r.LiveFetches() != {} ==> r.LiveFetches() == {r.abortController.value}
  {
    var live := r.LiveFetches();
    if live != {} {
      assert live == OptSet(r.abortController);
    }
  }

  /** Calling `abort()` twice leaves the state of a single call. */
  method AbortTwice(r: Refresher)
    requires r.Valid()
    modifies r
    ensures r.aborted == old(r.aborted) + OptSet(old(r.abortController))
    ensures r.timers == map[] && r.refreshCancel == None
    ensures r.abortController == old(r.abortController) && r.pending == old(r.pending)
    ensures r.nextId == old(r.nextId) && r.fetches == old(r.fetches) && r.errors == old(r.errors)
  {
    r.Abort();
    r.Abort();
  }

  /** A fetch that ignores its abort signal and succeeds nulls the newer controller and arms a
      second timer: the completion handlers never check that the completing fetch is current. */
  method StaleSuccess() returns (r: Refresher)
    ensures |r.timers| == 2
    ensures !r.Valid()
  {
    r := new Refresher();
    r.Refresh();
    var first := r.nextId - 1;
    r.Refresh();
    var second := r.nextId - 1;
    assert first in r.aborted && first in r.pending && second in r.pending && first != second;
    r.Resolve(second);
    var t1 := r.nextId - 1;
    r.Resolve(first);
    var t2 := r.nextId - 1;
    assert t1 in r.timers && t2 in r.timers && t1 != t2;
    assert r.timers.Keys == {t1, t2};
  }
}
