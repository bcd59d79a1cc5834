/**
 * The call-list synchroniser (hooks/useGetCalls.ts): a refresh that queries the user's
 * calls and replaces the list wholesale or keeps it, a loading flag around the query,
 * and the classification of the list into ended and upcoming calls relative to "now".
 * Timestamps are integers; the query itself is recorded, its result is a parameter.
 */
module GetCalls {
  import opened Wrappers

  /** The part of a call's state the classification reads. */
  datatype CallState = CallState(startsAt: Option<int>, endedAt: Option<int>)

  datatype Call = Call(id: string, state: CallState)

  /** `(startsAt && startsAt < now) || !!endedAt`: started before now, or ended. */
  predicate IsEnded(c: Call, now: int): (b: bool)
    ensures c.state.endedAt.Some? ==> b
    ensures c.state.endedAt.None? ==> (b <==> c.state.startsAt.Some? && c.state.startsAt.value < now)
  {
    (c.state.startsAt.Some? && c.state.startsAt.value < now) || c.state.endedAt.Some?
  }

  /** `startsAt && startsAt > now`: starts after now. `endedAt` is not consulted. */
  predicate IsUpcoming(c: Call, now: int): (b: bool)
    ensures b ==> c.state.startsAt.Some?
    ensures c.state.startsAt.Some? ==> (b <==> now < c.state.startsAt.value)
  {
    c.state.startsAt.Some? && c.state.startsAt.value > now
  }

  /**
   * `a` is an order-preserving sub-sequence of `b`. Matching each element of `a` with
   * the earliest possible element of `b` decides this.
   */
  predicate IsSubsequence<T(==)>(a: seq<T>, b: seq<T>)
    decreases |b|
  {
    if a == [] then true
    else if b == [] then false
    else if a[0] == b[0] then IsSubsequence(a[1..], b[1..])
    else IsSubsequence(a, b[1..])
  }

  /**
   * `Array.prototype.filter`: the elements of `s` that satisfy `p`, in their order, each
   * as many times as it occurs in `s`.
   */
  function Filter<T(==)>(s: seq<T>, p: T -> bool): (r: seq<T>)
    ensures IsSubsequence(r, s)
    ensures forall x :: x in r ==> x in s && p(x)
    ensures forall x :: x in s && p(x) ==> x in r
    ensures forall x | x in s :: multiset(r)[x] == if p(x) then multiset(s)[x] else 0
  {
    if s == [] then []
    else
      assert s == [s[0]] + s[1..];
      assert multiset(s) == multiset([s[0]]) + multiset(s[1..]);
      if p(s[0]) then [s[0]] + Filter(s[1..], p)
      else Filter(s[1..], p)
  }

  /**
   * `endedCalls`: undefined while the list is, otherwise the order-preserving
   * sub-sequence of the calls that are ended at `now`, duplicates kept.
   */
  function EndedCalls(calls: Option<seq<Call>>, now: int): (r: Option<seq<Call>>)
    ensures r.Some? <==> calls.Some?
    ensures r.Some? ==> IsSubsequence(r.value, calls.value)
    ensures r.Some? ==> forall c :: c in r.value <==> c in calls.value && IsEnded(c, now)
    ensures r.Some? ==> forall c | c in calls.value :: multiset(r.value)[c] == if IsEnded(c, now) then multiset(calls.value)[c] else 0
  {
    match calls
    case None => None
    case Some(cs) => Some(Filter(cs, c => IsEnded(c, now)))
  }

  /**
   * `upcomingCalls`: undefined while the list is, otherwise the order-preserving
   * sub-sequence of the calls that start after `now`, duplicates kept.
   */
  function UpcomingCalls(calls: Option<seq<Call>>, now: int): (r: Option<seq<Call>>)
    ensures r.Some? <==> calls.Some?
    ensures r.Some? ==> IsSubsequence(r.value, calls.value)
    ensures r.Some? ==> forall c :: c in r.value <==> c in calls.value && IsUpcoming(c, now)
    ensures r.Some? ==> forall c | c in calls.value :: multiset(r.value)[c] == if IsUpcoming(c, now) then multiset(calls.value)[c] else 0
  {
    match calls
    case None => None
    case Some(cs) => Some(Filter(cs, c => IsUpcoming(c, now)))
  }

  /** Whether a call is upcoming does not depend on its end time. */
  lemma UpcomingIgnoresEndedAt(c: Call, endedAt: Option<int>, now: int)
    ensures IsUpcoming(c, now) == IsUpcoming(Call(c.id, CallState(c.state.startsAt, endedAt)), now)
  {
  }

  /** A call with an end time is ended whatever its start time. */
  lemma EndedAtMeansEnded(calls: seq<Call>, c: Call, now: int)
    requires c in calls && c.state.endedAt.Some?
    ensures c in EndedCalls(Some(calls), now).value
  {
  }

  /**
   * `upcoming` ignores `endedAt`: an ended call whose start lies in the future is listed
   * as both ended and upcoming.
   */
  lemma EndedFutureCallInBothLists(calls: seq<Call>, c: Call, now: int)
    requires c in calls && c.state.endedAt.Some?
    requires c.state.startsAt.Some? && c.state.startsAt.value > now
    ensures c in EndedCalls(Some(calls), now).value && c in UpcomingCalls(Some(calls), now).value
  {
  }

  /** A call that starts exactly now and has not ended is in neither list. */
  lemma StartingNowInNeither(calls: seq<Call>, c: Call, now: int)
    requires c.state == CallState(Some(now), None)
    ensures c !in EndedCalls(Some(calls), now).value && c !in UpcomingCalls(Some(calls), now).value
  {
  }

  /** Without end times the two lists share no call. */
  lemma DisjointWithoutEndedAt(calls: seq<Call>, now: int)
    requires forall i :: 0 <= i < |calls| ==> calls[i].state.endedAt.None?
    ensures forall c :: c in EndedCalls(Some(calls), now).value ==> c !in UpcomingCalls(Some(calls), now).value
  {
  }

  /**
   * Without an end time, a call with a start time other than now is in exactly one list:
   * ended when it started before now, upcoming when it starts after.
   */
  lemma ExactlyOneListWithoutEndedAt(calls: seq<Call>, c: Call, now: int)
    requires c in calls && c.state.endedAt.None?
    requires c.state.startsAt.Some? && c.state.startsAt.value != now
    ensures (c in EndedCalls(Some(calls), now).value) != (c in UpcomingCalls(Some(calls), now).value)
    ensures c in EndedCalls(Some(calls), now).value <==> c.state.startsAt.value < now
  {
  }

  /** The parameters of the remote query (the filter and the sort are the remote's job). */
  datatype Query = QueryCalls(sortField: string, sortDirection: int, userId: string)

  const SortField := "starts_at"
  const SortDescending := -1

  /**
   * The hook's state: the last list received (undefined before the first success), the
   * loading flag, the number of refreshes awaiting their result, and the queries issued.
   */
  class CallList {
    var calls: Option<seq<Call>>
    var isLoading: bool
    var inFlight: nat
    var queries: seq<Query>

    /** The loading flag is only ever set while some refresh awaits its result. */
    ghost predicate Valid()
      reads this
    {
      isLoading ==> inFlight > 0
    }

    constructor ()
      ensures Valid() && calls == None && !isLoading && inFlight == 0 && queries == []
    {
      calls := None;
      isLoading := false;
      inFlight := 0;
      queries := [];
    }

    /** With no refresh awaiting its result the list is never shown as loading. */
    lemma IdleIsNotLoading()
      requires Valid() && inFlight == 0
      ensures !isLoading
    {
    }

    /**
     * `loadCalls` up to its await: without a client or a user identifier it returns having
     * changed nothing; otherwise it sets the loading flag and issues the query.
     */
    method LoadCalls(clientReady: bool, userId: Option<string>) returns (started: bool)
      requires Valid()
      modifies this
      ensures Valid()
      ensures started <==> clientReady && userId.Some? && userId.value != ""
      ensures !started ==> calls == old(calls) && isLoading == old(isLoading)
                           && inFlight == old(inFlight) && queries == old(queries)
      ensures started ==> calls == old(calls) && isLoading && inFlight == old(inFlight) + 1
                          && queries == old(queries) + [QueryCalls(SortField, SortDescending, userId.value)]
    {
      if !clientReady || userId.None? || userId.value == "" {
        return false;
      }
      isLoading := true;
      inFlight := inFlight + 1;
      queries := queries + [QueryCalls(SortField, SortDescending, userId.value)];
      return true;
    }

    /**
     * `loadCalls` after its await: a resolved query replaces the list wholesale, a rejected
     * one leaves it as it was; either way the loading flag ends false.
     */
    method LoadCallsSettled(result: Result<seq<Call>, string>)
      requires Valid() && inFlight > 0
      modifies this
      ensures Valid() && !isLoading && inFlight == old(inFlight) - 1 && queries == old(queries)
      ensures calls == (if result.Ok? then Some(result.value) else old(calls))
    {
      if result.Ok? {
        calls := Some(result.value);
      }
      isLoading := false;
      inFlight := inFlight - 1;
    }
  }

  /** Failed refreshes keep the last list received: two in a row change nothing a reader sees. */
  method FailedRefreshesKeepList(userId: string, received: seq<Call>, now: int)
    requires userId != ""
  {
    var list := new CallList();
    var started := list.LoadCalls(true, Some(userId));
    list.LoadCallsSettled(Ok(received));
    var ended := EndedCalls(list.calls, now);
    started := list.LoadCalls(true, Some(userId));
    assert started && list.isLoading;
    list.LoadCallsSettled(Err("network error"));
    started := list.LoadCalls(true, Some(userId));
    list.LoadCallsSettled(Err("timeout"));
    assert list.calls == Some(received) && !list.isLoading && list.inFlight == 0;
    assert EndedCalls(list.calls, now) == ended;
    started := list.LoadCalls(false, Some(userId));
    assert !started && |list.queries| == 3;
  }
}
