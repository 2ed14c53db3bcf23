/** The study listing page's filter: which list of studies is shown for the
    current filter, and how the filter follows the URL `status` query and
    the tab control. */
module StudyFilter {
  import opened Studies

  /** The JavaScript values that reach the filter. `router.query.status` is
      undefined when the parameter is absent, a string, or an array of
      strings when the parameter is repeated; the `as string` cast does not
      change it at run time. */
  datatype Value = Undefined | Str(s: string) | StrArray(items: seq<string>)

  /** JavaScript truthiness: undefined and "" are falsy, every other string
      and every array (even an empty one) is truthy. */
  predicate Truthy(v: Value) {
    match v
    case Undefined => false
    case Str(s) => s != ""
    case StrArray(_) => true
  }

  /** The JavaScript `a || b` operator. */
  function Or(a: Value, b: Value): (r: Value)
    ensures Truthy(a) ==> r == a
    ensures !Truthy(a) ==> r == b
  {
    if Truthy(a) then a else b
  }

  /** The list shown for a filter: the if/else chain in the page's second
      effect, which first clears the list and then sets it in at most one
      branch. Only strings can equal the keys under `===`. */
  function Select(filter: Value, b: Buckets): (r: seq<Study>)
    ensures filter == Str("all") ==> r == Concat(b)
    ensures filter.Str? && IsBucketKey(filter.s) ==> r == Lookup(b, filter.s).value
    ensures !(filter.Str? && (filter.s == "all" || IsBucketKey(filter.s))) ==> r == []
  {
    if filter == Str("all") then Concat(b)
    else if filter == Str("ready") then b.ready
    else if filter == Str("open") then b.open
    else if filter == Str("inprogress") then b.inprogress
    else if filter == Str("close") then b.close
    else []
  }

  /** Whatever the filter, every study shown is one of the fetched studies:
      nothing from an earlier selection survives, and nothing is invented. */
  lemma SelectShowsOnlyBuckets(filter: Value, b: Buckets)
    ensures multiset(Select(filter, b)) <= multiset(Concat(b))
  {
  }

  /** For a named filter on the page's props, the list shown is exactly the
      studies of that status, in fetch order, and all of them. */
  lemma SelectPartitionedBucket(list: seq<Study>, key: string)
    requires IsBucketKey(key)
    ensures Select(Str(key), Partitioned(list)) == Only(list, key)
    ensures forall x :: x in Select(Str(key), Partitioned(list)) <==> x in list && KeyOf(x) == key
  {
    forall x ensures x in Only(list, key) <==> x in list && KeyOf(x) == key {
      OnlyMembership(list, key, x);
    }
  }

  /** For the "all" filter on the page's props, the list shown holds every
      fetched study exactly as often as it was fetched. */
  lemma SelectAllPartitioned(list: seq<Study>)
    requires KnownStatuses(list)
    ensures multiset(Select(Str("all"), Partitioned(list))) == multiset(list)
    ensures |Select(Str("all"), Partitioned(list))| == |list|
  {
    PartitionPermutation(list);
    PartitionCount(list);
  }

  /** The filter `useState` starts with: the query value when it is truthy,
      "open" otherwise. */
  function InitialFilter(status: Value): (r: Value)
    ensures Truthy(status) ==> r == status
    ensures !Truthy(status) ==> r == Str("open")
  {
    Or(status, Str("open"))
  }

  /** What can change the filter once the page is mounted: the `status`
      query changing (the first effect) or a tab being chosen. */
  datatype Event = QueryChanged(status: Value) | TabChanged(key: string)

  /** An event that sets the filter; a query change to a falsy value does
      not. */
  predicate Decisive(e: Event) {
    e.TabChanged? || Truthy(e.status)
  }

  /** The value a decisive event sets the filter to. */
  function Target(e: Event): Value
    requires Decisive(e)
  {
    match e
    case QueryChanged(status) => status
    case TabChanged(key) => Str(key)
  }

  /** The filter after one event. */
  function Step(filter: Value, e: Event): (r: Value)
    ensures Decisive(e) ==> r == Target(e)
    ensures !Decisive(e) ==> r == filter
  {
    match e
    case QueryChanged(status) => if Truthy(status) then status else filter
    case TabChanged(key) => Str(key)
  }

  /** The filter after a sequence of events, from `filter`. */
  function Run(filter: Value, events: seq<Event>): Value
    decreases |events|
  {
    if events == [] then filter
    else Step(Run(filter, events[..|events| - 1]), events[|events| - 1])
  }

  /** The effect that runs at mount with the same query the state was seeded
      from does not change the initial filter. */
  lemma MountKeepsInitial(status: Value)
    ensures Step(InitialFilter(status), QueryChanged(status)) == InitialFilter(status)
  {
  }

  /** With no decisive event, the filter is where it started. */
  lemma {:induction false} RunWithoutDecisive(filter: Value, events: seq<Event>)
    requires forall i :: 0 <= i < |events| ==> !Decisive(events[i])
    ensures Run(filter, events) == filter
    decreases |events|
  {
    if events != [] {
      RunWithoutDecisive(filter, events[..|events| - 1]);
    }
  }

  /** The most recent decisive event decides the filter, whatever came before
      it: a later truthy query overrides a tab choice and a later tab choice
      overrides the query. */
  lemma {:induction false} RunLatestDecides(filter: Value, events: seq<Event>, j: nat)
    requires j < |events| && Decisive(events[j])
    requires forall i :: j < i < |events| ==> !Decisive(events[i])
    ensures Run(filter, events) == Target(events[j])
    decreases |events|
  {
    var n := |events| - 1;
    if j < n {
      RunLatestDecides(filter, events[..n], j);
    }
  }

  /** A tab choice followed by a truthy query change shows the query's
      filter. */
  lemma QueryOverridesTab(filter: Value, key: string, status: Value)
    requires Truthy(status)
    ensures Run(filter, [TabChanged(key), QueryChanged(status)]) == status
  {
    RunLatestDecides(filter, [TabChanged(key), QueryChanged(status)], 1);
  }

  /** The filter the page holds in its `useState` hook. */
  class FilterState {
    var filter: Value

    /** Seeds the filter from the URL query at mount. */
    constructor (status: Value)
      ensures filter == InitialFilter(status)
      ensures filter != Undefined
    {
      filter := Or(status, Str("open"));
    }

    /** The first effect: a truthy `status` query replaces the filter; a
        falsy one leaves it as it is. */
    method OnQueryChange(status: Value)
      modifies this
      ensures Truthy(status) ==> filter == status
      ensures !Truthy(status) ==> filter == old(filter)
      ensures filter == Step(old(filter), QueryChanged(status))
    {
      if Truthy(status) {
        filter := status;
      }
    }

    /** onChangeFilter: the chosen tab's key becomes the filter. */
    method OnTabChange(key: string)
      modifies this
      ensures filter == Str(key)
      ensures filter == Step(old(filter), TabChanged(key))
    {
      filter := Str(key);
    }
  }
}
