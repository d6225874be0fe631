/**
  The portfolio ledger of the browser page: positions entered through the
  form are appended, removed by id, and summed into three totals. Every
  change is written back to browser storage; `Ledger.saved` stands for what
  the storage key holds.
 */
module Portfolio {

  import opened Options
  import opened Js

  /** One holding. `id` is the millisecond clock reading taken when it was added. */
  datatype Position = Position(
    id: int,
    name: string,
    shares: real,
    buyPrice: real,
    currentPrice: real,
    value: real)

  /** The in-memory portfolio and the stored copy; `saved == None` means the key was never written. */
  datatype Ledger = Ledger(portfolio: seq<Position>, saved: Option<seq<Position>>)

  /** The three figures shown above the position list. */
  datatype Summary = Summary(totalValue: real, totalInvested: real, gainLoss: real)

  /** The stored copy equals the in-memory portfolio. */
  predicate Synced(l: Ledger) {
    l.saved == Some(l.portfolio)
  }

  /**
    Every position is worth what was paid for it and its price has not moved.
    Nothing in the page ever updates a price, so this holds of everything it writes.
   */
  predicate Consistent(ps: seq<Position>) {
    forall p :: p in ps ==> AtCost(p)
  }

  /** A position valued at what was paid for it, at an unchanged price. */
  predicate AtCost(p: Position) {
    p.value == p.shares * p.buyPrice && p.currentPrice == p.buyPrice
  }

  /** Page start: a stored list is adopted as it is, a missing key yields the empty list. */
  function Load(stored: Option<seq<Position>>): (l: Ledger)
    ensures stored.None? ==> l.portfolio == [] && l.saved == None
    ensures stored.Some? ==> l.portfolio == stored.value && Synced(l)
  {
    match stored
    case None => Ledger([], None)
    case Some(ps) => Ledger(ps, Some(ps))
  }

  /** The form is accepted only with a non-empty name and truthy share count and price. */
  predicate Accepts(name: string, shares: Float, price: Float) {
    name != "" && FloatTruthy(shares) && FloatTruthy(price)
  }

  /**
    The add button. A rejected form leaves the ledger untouched (nothing is
    appended and nothing is saved); an accepted one appends exactly one record
    at the end, bought and valued at the entered price, and saves.
   */
  function AddPosition(l: Ledger, id: int, name: string, shares: Float, price: Float): (r: Ledger)
    ensures !Accepts(name, shares, price) ==> r == l
    ensures Accepts(name, shares, price) ==>
      && |r.portfolio| == |l.portfolio| + 1
      && r.portfolio[..|l.portfolio|] == l.portfolio
      && r.portfolio[|l.portfolio|].id == id
      && r.portfolio[|l.portfolio|].name == name
      && r.portfolio[|l.portfolio|].shares == shares.v
      && r.portfolio[|l.portfolio|].buyPrice == price.v
      && r.portfolio[|l.portfolio|].currentPrice == price.v
      && r.portfolio[|l.portfolio|].value == shares.v * price.v
      && Synced(r)
    ensures Consistent(l.portfolio) ==> Consistent(r.portfolio)
  {
    if Accepts(name, shares, price) then
      var ps := l.portfolio + [Position(id, name, shares.v, price.v, price.v, shares.v * price.v)];
      Ledger(ps, Some(ps))
    else
      l
  }

  /** The positions whose id differs from `id`, in their original order. */
  function Without(ps: seq<Position>, id: int): (r: seq<Position>)
    ensures |r| <= |ps|
    ensures forall p :: p in r <==> p in ps && p.id != id
    ensures (forall i :: 0 <= i < |ps| ==> ps[i].id != id) ==> r == ps
  {
    if |ps| == 0 then []
    else if ps[0].id == id then Without(ps[1..], id)
    else [ps[0]] + Without(ps[1..], id)
  }

  /** The delete button: drop every position carrying `id`, then save. */
  function RemovePosition(l: Ledger, id: int): (r: Ledger)
    ensures r.portfolio == Without(l.portfolio, id)
    ensures forall p :: p in r.portfolio <==> p in l.portfolio && p.id != id
    ensures (forall i :: 0 <= i < |l.portfolio| ==> l.portfolio[i].id != id) ==> r.portfolio == l.portfolio
    ensures Synced(r)
    ensures Consistent(l.portfolio) ==> Consistent(r.portfolio)
  {
    var ps := Without(l.portfolio, id);
    Ledger(ps, Some(ps))
  }

  /** Sum of the stored values, accumulated left to right as `reduce` does. */
  function TotalValue(ps: seq<Position>): real {
    if |ps| == 0 then 0.0 else TotalValue(ps[..|ps| - 1]) + ps[|ps| - 1].value
  }

  /** Sum of shares times buy price, accumulated left to right. */
  function TotalInvested(ps: seq<Position>): real {
    if |ps| == 0 then 0.0
    else TotalInvested(ps[..|ps| - 1]) + ps[|ps| - 1].shares * ps[|ps| - 1].buyPrice
  }

  /** The statistics panel: both totals and their difference. */
  function PortfolioStats(ps: seq<Position>): (s: Summary)
    ensures s.gainLoss == s.totalValue - s.totalInvested
    ensures |ps| == 0 ==> s == Summary(0.0, 0.0, 0.0)
    ensures Consistent(ps) ==> s.totalValue == s.totalInvested && s.gainLoss == 0.0
    ensures |ps| == 1 ==>
      s.totalValue == ps[0].value && s.totalInvested == ps[0].shares * ps[0].buyPrice
  {
    BalancedWhenConsistent(ps);
    SinglePositionTotals(ps);
    var v := TotalValue(ps);
    var i := TotalInvested(ps);
    Summary(v, i, v - i)
  }

  /** A one-position portfolio totals that position's value and cost. */
  lemma SinglePositionTotals(ps: seq<Position>)
    ensures |ps| == 1 ==>
      TotalValue(ps) == ps[0].value && TotalInvested(ps) == ps[0].shares * ps[0].buyPrice
  {
    if |ps| == 1 {
      assert ps[..|ps| - 1] == [];
      assert TotalValue(ps) == TotalValue([]) + ps[0].value;
      assert TotalInvested(ps) == TotalInvested([]) + ps[0].shares * ps[0].buyPrice;
    }
  }

  /** In a consistent portfolio the two sums agree term by term. */
  lemma {:induction false} BalancedWhenConsistent(ps: seq<Position>)
    ensures Consistent(ps) ==> TotalValue(ps) == TotalInvested(ps)
  {
    if |ps| > 0 && Consistent(ps) {
      var front := ps[..|ps| - 1];
      assert Consistent(front) by {
        forall p | p in front ensures p in ps {
          var i :| 0 <= i < |front| && front[i] == p;
          assert ps[i] == p;
        }
      }
      assert AtCost(ps[|ps| - 1]);
      BalancedWhenConsistent(front);
    }
  }

  /** Both totals split over a concatenation. */
  lemma {:induction false} TotalsOfConcat(a: seq<Position>, b: seq<Position>)
    ensures TotalValue(a + b) == TotalValue(a) + TotalValue(b)
    ensures TotalInvested(a + b) == TotalInvested(a) + TotalInvested(b)
  {
    if |b| > 0 {
      var front := b[..|b| - 1];
      assert (a + b)[..|a + b| - 1] == a + front;
      TotalsOfConcat(a, front);
    } else {
      assert a + b == a;
    }
  }

  /**
    The displayed totals are additive over a split of the portfolio; with the
    empty and one-position cases this fixes them as the sums over all positions.
   */
  lemma StatsOfConcat(a: seq<Position>, b: seq<Position>)
    ensures PortfolioStats(a + b).totalValue == PortfolioStats(a).totalValue + PortfolioStats(b).totalValue
    ensures PortfolioStats(a + b).totalInvested == PortfolioStats(a).totalInvested + PortfolioStats(b).totalInvested
  {
    TotalsOfConcat(a, b);
  }

  /** An accepted add raises both totals by exactly shares times price. */
  lemma StatsAfterAdd(l: Ledger, id: int, name: string, shares: Float, price: Float)
    requires Accepts(name, shares, price)
    ensures PortfolioStats(AddPosition(l, id, name, shares, price).portfolio).totalValue
      == PortfolioStats(l.portfolio).totalValue + shares.v * price.v
    ensures PortfolioStats(AddPosition(l, id, name, shares, price).portfolio).totalInvested
      == PortfolioStats(l.portfolio).totalInvested + shares.v * price.v
  {
    var ps := AddPosition(l, id, name, shares, price).portfolio;
    assert ps[..|ps| - 1] == l.portfolio;
  }

  /** Removal by id keeps relative order: it distributes over concatenation. */
  lemma {:induction false} WithoutConcat(a: seq<Position>, b: seq<Position>, id: int)
    ensures Without(a + b, id) == Without(a, id) + Without(b, id)
  {
    if |a| == 0 {
      assert a + b == b;
    } else {
      assert (a + b)[0] == a[0];
      assert (a + b)[1..] == a[1..] + b;
      WithoutConcat(a[1..], b, id);
    }
  }

  /** Removing the same id twice is the same as removing it once. */
  lemma RemoveIdempotent(l: Ledger, id: int)
    ensures RemovePosition(RemovePosition(l, id), id) == RemovePosition(l, id)
  {
  }

  /** The two user actions on the ledger, with the clock reading passed in. */
  datatype Action =
    | Add(id: int, name: string, shares: Float, price: Float)
    | Remove(id: int)

  function Apply(l: Ledger, a: Action): Ledger {
    match a
    case Add(id, name, shares, price) => AddPosition(l, id, name, shares, price)
    case Remove(id) => RemovePosition(l, id)
  }

  function Replay(l: Ledger, actions: seq<Action>): Ledger
    decreases |actions|
  {
    if |actions| == 0 then l else Replay(Apply(l, actions[0]), actions[1..])
  }

  /**
    After any sequence of adds and removes, starting from a consistent
    portfolio, every position is still worth its cost and the displayed
    gain/loss is zero.
   */
  lemma {:induction false} ReplayKeepsBalance(l: Ledger, actions: seq<Action>)
    requires Consistent(l.portfolio)
    decreases |actions|
    ensures Consistent(Replay(l, actions).portfolio)
    ensures PortfolioStats(Replay(l, actions).portfolio).gainLoss == 0.0
  {
    if |actions| > 0 {
      ReplayKeepsBalance(Apply(l, actions[0]), actions[1..]);
    }
  }

  /** Once storage mirrors the portfolio, every later action keeps it that way. */
  lemma {:induction false} ReplayKeepsSync(l: Ledger, actions: seq<Action>)
    requires Synced(l)
    decreases |actions|
    ensures Synced(Replay(l, actions))
  {
    if |actions| > 0 {
      ReplayKeepsSync(Apply(l, actions[0]), actions[1..]);
    }
  }

  /** Either storage mirrors the portfolio, or nothing was ever stored and the portfolio is empty. */
  predicate SyncedOrFresh(l: Ledger) {
    Synced(l) || (l.saved == None && l.portfolio == [])
  }

  lemma {:induction false} ReplayKeepsSyncedOrFresh(l: Ledger, actions: seq<Action>)
    requires SyncedOrFresh(l)
    decreases |actions|
    ensures SyncedOrFresh(Replay(l, actions))
  {
    if |actions| > 0 {
      ReplayKeepsSyncedOrFresh(Apply(l, actions[0]), actions[1..]);
    }
  }

  /**
    Reloading the page after any sequence of actions shows the portfolio as it
    was left: what storage holds loads back to the in-memory list.
   */
  lemma ReloadShowsSame(stored: Option<seq<Position>>, actions: seq<Action>)
    ensures var l := Replay(Load(stored), actions);
      Load(l.saved).portfolio == l.portfolio
  {
    ReplayKeepsSyncedOrFresh(Load(stored), actions);
  }

  /** A fresh page with nothing stored stays consistent and balanced under any actions. */
  lemma FreshStartBalanced(actions: seq<Action>)
    ensures Consistent(Replay(Load(None), actions).portfolio)
    ensures PortfolioStats(Replay(Load(None), actions).portfolio).gainLoss == 0.0
  {
    ReplayKeepsBalance(Load(None), actions);
  }

}
