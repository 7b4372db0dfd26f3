/** The "Markets & Exchanges" page: the fetched list of instruments, each with its
    latest signal, split into an open and a closed list under a market-type filter
    and an action filter, and the controls that set those filters. */
module Markets {

  const Open := "Open"
  const Closed := "Closed"

  /** The `latestSignal` of a fetched row. `callType` is the field the source calls
      `type` ("Buy" or "Sell"); prices are abstracted to `int`. */
  datatype LatestSignal = LatestSignal(
    id: int, callType: string, status: string,
    stopLoss: int, ltp: int, target1: int, target2: int, target3: int, buyRange: int,
    createdAt: string)

  /** One instrument of the fetched list; every row carries its latest signal. */
  datatype Item = Item(id: int, name: string, market: string, isFavourite: bool, latestSignal: LatestSignal)

  /** The predicate of both `data.filter(...)` calls: the status matches exactly, and
      an empty market type or action matches anything. */
  predicate Keeps(status: string, marketType: string, action: string, x: Item) {
    x.latestSignal.status == status &&
    (marketType == "" || x.market == marketType) &&
    (action == "" || x.latestSignal.callType == action)
  }

  /** `data.filter(x => Keeps(status, marketType, action, x))`. */
  function Filter(data: seq<Item>, status: string, marketType: string, action: string): (r: seq<Item>)
    ensures |r| <= |data|
    ensures multiset(r) <= multiset(data)
  {
    if data == [] then []
    else
      assert data == [data[0]] + data[1..];
      if Keeps(status, marketType, action, data[0]) then [data[0]] + Filter(data[1..], status, marketType, action)
      else Filter(data[1..], status, marketType, action)
  }

  /** `xs` can be obtained from `ys` by deleting elements, keeping the order. */
  predicate IsSubsequence<T(==)>(xs: seq<T>, ys: seq<T>)
    decreases |ys|
  {
    xs == [] ||
    (ys != [] && ((xs[0] == ys[0] && IsSubsequence(xs[1..], ys[1..])) || IsSubsequence(xs, ys[1..])))
  }

  /** Every element of a filtered list satisfies the filter's predicate. */
  lemma {:induction false} FilterSound(data: seq<Item>, status: string, marketType: string, action: string)
    ensures forall x :: x in Filter(data, status, marketType, action) ==> Keeps(status, marketType, action, x)
  {
    if data != [] {
      FilterSound(data[1..], status, marketType, action);
    }
  }

  /** A filtered list is a subsequence of the fetched list: nothing is added and the
      original relative order is kept. */
  lemma {:induction false} FilterIsSubsequence(data: seq<Item>, status: string, marketType: string, action: string)
    ensures IsSubsequence(Filter(data, status, marketType, action), data)
  {
    if data != [] {
      var r := Filter(data, status, marketType, action);
      FilterIsSubsequence(data[1..], status, marketType, action);
      if Keeps(status, marketType, action, data[0]) {
        assert r[0] == data[0] && r[1..] == Filter(data[1..], status, marketType, action);
      }
    }
  }

  /** A filtered list keeps every occurrence of every element the predicate accepts
      and no occurrence of any other. */
  lemma {:induction false} FilterCounts(data: seq<Item>, status: string, marketType: string, action: string)
    ensures forall x :: multiset(Filter(data, status, marketType, action))[x] ==
                        if Keeps(status, marketType, action, x) then multiset(data)[x] else 0
  {
    if data != [] {
      FilterCounts(data[1..], status, marketType, action);
      assert data == [data[0]] + data[1..];
    }
  }

  /** Filtering an already filtered list with the same predicate changes nothing. */
  lemma {:induction false} FilterIdempotent(data: seq<Item>, status: string, marketType: string, action: string)
    ensures Filter(Filter(data, status, marketType, action), status, marketType, action) ==
            Filter(data, status, marketType, action)
  {
    if data != [] {
      FilterIdempotent(data[1..], status, marketType, action);
      if Keeps(status, marketType, action, data[0]) {
        var r := Filter(data, status, marketType, action);
        assert r[0] == data[0] && r[1..] == Filter(data[1..], status, marketType, action);
      }
    }
  }

  /** Every open signal is "Open", every closed one is "Closed", a non-empty market
      type is matched exactly by every listed item, and so is a non-empty action. */
  lemma {:induction false} ListedItemsMatchFilters(data: seq<Item>, marketType: string, action: string)
    ensures forall x :: x in Filter(data, Open, marketType, action) ==>
              x.latestSignal.status == Open &&
              (marketType != "" ==> x.market == marketType) &&
              (action != "" ==> x.latestSignal.callType == action)
    ensures forall x :: x in Filter(data, Closed, marketType, action) ==>
              x.latestSignal.status == Closed &&
              (marketType != "" ==> x.market == marketType) &&
              (action != "" ==> x.latestSignal.callType == action)
  {
    FilterSound(data, Open, marketType, action);
    FilterSound(data, Closed, marketType, action);
  }

  /** No item is both an open and a closed signal. */
  lemma {:induction false} OpenClosedDisjoint(data: seq<Item>, marketType: string, action: string)
    ensures forall x :: !(x in Filter(data, Open, marketType, action) && x in Filter(data, Closed, marketType, action))
  {
    FilterSound(data, Open, marketType, action);
    FilterSound(data, Closed, marketType, action);
  }

  /** An item whose status is neither "Open" nor "Closed" (for example "Close") is in
      neither list, whatever the filters. */
  lemma {:induction false} OtherStatusNeverListed(data: seq<Item>, marketType: string, action: string, x: Item)
    requires x.latestSignal.status != Open && x.latestSignal.status != Closed
    ensures x !in Filter(data, Open, marketType, action)
    ensures x !in Filter(data, Closed, marketType, action)
  {
    FilterSound(data, Open, marketType, action);
    FilterSound(data, Closed, marketType, action);
  }

  /** With both filters empty, each list is exactly the subsequence of the fetched
      list with that status: same order, every such occurrence and nothing else. */
  lemma {:induction false} EmptyFiltersSelectByStatus(data: seq<Item>, status: string)
    ensures IsSubsequence(Filter(data, status, "", ""), data)
    ensures forall x :: multiset(Filter(data, status, "", ""))[x] ==
                        if x.latestSignal.status == status then multiset(data)[x] else 0
  {
    FilterIsSubsequence(data, status, "", "");
    FilterCounts(data, status, "", "");
  }

  /** The two lists together never hold more items than were fetched; with both
      filters empty and every status "Open" or "Closed", they hold all of them. */
  lemma {:induction false} OpenClosedCover(data: seq<Item>, marketType: string, action: string)
    ensures |Filter(data, Open, marketType, action)| + |Filter(data, Closed, marketType, action)| <= |data|
    ensures marketType == "" && action == "" &&
            (forall i :: 0 <= i < |data| ==> data[i].latestSignal.status in {Open, Closed}) ==>
            |Filter(data, Open, marketType, action)| + |Filter(data, Closed, marketType, action)| == |data|
  {
    if data != [] {
      OpenClosedCover(data[1..], marketType, action);
      if marketType == "" && action == "" &&
         (forall i :: 0 <= i < |data| ==> data[i].latestSignal.status in {Open, Closed}) {
        assert data[0].latestSignal.status in {Open, Closed};
        assert forall i :: 0 <= i < |data[1..]| ==> data[1..][i].latestSignal.status == data[i + 1].latestSignal.status;
      }
    }
  }

  /** The market-type buttons of the page. */
  const MarketButtons := ["Commodity", "Forex", "Stocks"]

  /** The component state of the page; the two lists are derived from it on every render. */
  class MarketsPage {
    var marketType: string
    var time: string
    var action: string
    var data: seq<Item>

    constructor ()
      ensures marketType == "" && time == "This week" && action == "" && data == []
    {
      marketType, time, action, data := "", "This week", "", [];
    }

    /** `openSignals`: fetched rows, in order, that are "Open" and match both filters. */
    function OpenSignals(): (r: seq<Item>)
      reads this
      ensures IsSubsequence(r, data)
      ensures forall x :: x in r ==>
                x.latestSignal.status == Open &&
                (marketType != "" ==> x.market == marketType) &&
                (action != "" ==> x.latestSignal.callType == action)
      ensures forall x :: multiset(r)[x] ==
                if Keeps(Open, marketType, action, x) then multiset(data)[x] else 0
    {
      FilterIsSubsequence(data, Open, marketType, action);
      FilterSound(data, Open, marketType, action);
      FilterCounts(data, Open, marketType, action);
      Filter(data, Open, marketType, action)
    }

    /** `closedSignals`: fetched rows, in order, that are "Closed" and match both filters. */
    function ClosedSignals(): (r: seq<Item>)
      reads this
      ensures IsSubsequence(r, data)
      ensures forall x :: x in r ==>
                x.latestSignal.status == Closed &&
                (marketType != "" ==> x.market == marketType) &&
                (action != "" ==> x.latestSignal.callType == action)
      ensures forall x :: multiset(r)[x] ==
                if Keeps(Closed, marketType, action, x) then multiset(data)[x] else 0
    {
      FilterIsSubsequence(data, Closed, marketType, action);
      FilterSound(data, Closed, marketType, action);
      FilterCounts(data, Closed, marketType, action);
      Filter(data, Closed, marketType, action)
    }

    /** `setData(res.data)` once the list has been fetched. */
    method SetData(fetched: seq<Item>)
      modifies this`data
      ensures data == fetched
    {
      data := fetched;
    }

    /** A market button: pressing the selected market clears the type filter, pressing
        another market selects it. */
    method PressMarketButton(button: string)
      requires button in MarketButtons
      modifies this`marketType
      ensures marketType == (if old(marketType) == button then "" else button)
      ensures marketType == button <==> old(marketType) != button
    {
      marketType := if marketType == button then "" else button;
    }

    /** `handleActionChange`: "All" clears the action filter, any other value is stored. */
    method HandleActionChange(value: string)
      modifies this`action
      ensures action == (if value == "All" then "" else value)
    {
      if value == "All" {
        action := "";
      } else {
        action := value;
      }
    }

    /** `handleTimeChange`: the stored time window affects neither list. */
    method HandleTimeChange(value: string)
      modifies this`time
      ensures time == value
      ensures OpenSignals() == old(OpenSignals()) && ClosedSignals() == old(ClosedSignals())
    {
      time := value;
    }
  }
}
