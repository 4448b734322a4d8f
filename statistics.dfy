/** Reporting: the dashboard counts per role, the administrator's sliding
    commission, and the earnings report over completed orders. */
module Statistics {
  import opened Wrappers
  import opened Domain
  import opened Store
  import Text
  import Seqs

  // ---------------------------------------------------------------- dashboard

  /** RFQs suppliers can still act on. */
  predicate IsOpen(s: RfqStatus) {
    s == Published || s == OffersReceived || s == Negotiating
  }

  /** RFQs the administrator counts as active. */
  predicate IsActive(s: RfqStatus) {
    IsOpen(s) || s == FinalOfferSelected || s == SentToClient
  }

  datatype Dashboard =
    | AdminBoard(activeRfqs: nat, offersReceived: nat, activeOrders: nat)
    | ClientBoard(rfqsPosted: nat, finalOffers: nat, activeOrders: nat)
    | SupplierBoard(availableRfqs: nat, offersSubmitted: nat, ordersWon: nat)

  function ActiveRfqs(d: Db): set<Id> { set k | k in d.rfqs && IsActive(d.rfqs[k].status) }
  function OpenRfqs(d: Db): set<Id> { set k | k in d.rfqs && IsOpen(d.rfqs[k].status) }
  function ActiveOrders(d: Db): set<Id> { set k | k in d.orders && d.orders[k].status != Archived }
  function ClientRfqs(d: Db, u: Id): set<Id> { set k | k in d.rfqs && d.rfqs[k].clientId == u }

  /** Offers on the client's RFQs that reached the final stages; an offer
      whose RFQ is gone belongs to no client. */
  function ClientFinalOffers(d: Db, u: Id): set<Id> {
    set k | k in d.offers && d.offers[k].rfqId in d.rfqs && d.rfqs[d.offers[k].rfqId].clientId == u
              && (d.offers[k].status == FinalConfirmed || d.offers[k].status == Accepted)
  }

  function ClientActiveOrders(d: Db, u: Id): set<Id> {
    set k | k in d.orders && d.orders[k].clientId == u && d.orders[k].status != Archived
  }

  function SupplierOffers(d: Db, u: Id): set<Id> { set k | k in d.offers && d.offers[k].supplierId == u }
  function SupplierOrders(d: Db, u: Id): set<Id> { set k | k in d.orders && d.orders[k].supplierId == u }

  /** GET /api/statistics: the three counts of the caller's role. */
  function DashboardOf(d: Db, actor: Actor): (b: Dashboard)
    ensures b.AdminBoard? <==> actor.role == Admin
    ensures b.ClientBoard? <==> actor.role == Client
    ensures b.SupplierBoard? <==> actor.role == Supplier
    ensures b.AdminBoard? ==> b.offersReceived == |d.offers| && b.activeRfqs <= |d.rfqs|
    ensures !b.SupplierBoard? ==> b.activeOrders <= |d.orders|
    ensures b.AdminBoard? ==> b.activeRfqs == |ActiveRfqs(d)| && b.activeOrders == |ActiveOrders(d)|
    ensures b.ClientBoard? ==>
      b == ClientBoard(|ClientRfqs(d, actor.userId)|, |ClientFinalOffers(d, actor.userId)|, |ClientActiveOrders(d, actor.userId)|)
    ensures b.SupplierBoard? ==>
      b == SupplierBoard(|OpenRfqs(d)|, |SupplierOffers(d, actor.userId)|, |SupplierOrders(d, actor.userId)|)
  {
    Seqs.SubsetCard(ActiveRfqs(d), d.rfqs.Keys);
    Seqs.SubsetCard(ActiveOrders(d), d.orders.Keys);
    Seqs.SubsetCard(ClientActiveOrders(d, actor.userId), d.orders.Keys);
    match actor.role
    case Admin => AdminBoard(|ActiveRfqs(d)|, |d.offers|, |ActiveOrders(d)|)
    case Client => ClientBoard(|ClientRfqs(d, actor.userId)|, |ClientFinalOffers(d, actor.userId)|,
                               |ClientActiveOrders(d, actor.userId)|)
    case Supplier => SupplierBoard(|OpenRfqs(d)|, |SupplierOffers(d, actor.userId)|, |SupplierOrders(d, actor.userId)|)
  }

  /** Every RFQ open to suppliers counts among the administrator's active
      ones, and every active order of a client among all active orders. */
  lemma BoardsAgree(d: Db, client: Id, supplier: Id)
    ensures DashboardOf(d, Actor(supplier, Supplier)).availableRfqs <= DashboardOf(d, Actor(client, Admin)).activeRfqs
    ensures DashboardOf(d, Actor(client, Client)).activeOrders <= DashboardOf(d, Actor(client, Admin)).activeOrders
  {
    Seqs.SubsetCard(OpenRfqs(d), ActiveRfqs(d));
    Seqs.SubsetCard(ClientActiveOrders(d, client), ActiveOrders(d));
  }

  // --------------------------------------------------------------- commission

  /** The rate of the bracket an order's value falls in. */
  function CommissionRate(value: real): (rate: real)
    ensures 0.05 <= rate <= 0.10
  {
    if value < 100000.0 then 0.10
    else if value < 500000.0 then 0.08
    else if value < 1000000.0 then 0.07
    else 0.05
  }

  /** `calculateCommission`: 10% under 100000, 8% under 500000, 7% under
      1000000 and 5% above, each applied to the whole value. */
  function Commission(value: real): (c: real)
    ensures value >= 0.0 ==> 0.05 * value <= c <= 0.10 * value
  {
    if value < 100000.0 then value * 0.10
    else if value < 500000.0 then value * 0.08
    else if value < 1000000.0 then value * 0.07
    else value * 0.05
  }

  /** The commission is the value times its bracket's rate, and the rate
      never grows with the value. */
  lemma CommissionByRate(v: real, w: real)
    requires v <= w
    ensures Commission(v) == v * CommissionRate(v)
    ensures CommissionRate(w) <= CommissionRate(v)
  {
  }

  /** The amount, unlike the rate, is not monotone: crossing a bracket
      boundary lowers it. */
  lemma CommissionDropsAtBracket()
    ensures Commission(99999.0) > Commission(100000.0)
    ensures Commission(999999.0) > Commission(1000000.0)
  {
  }

  // ------------------------------------------------------------ the earnings

  /** One completed order with the columns the report reads: its price, its
      RFQ's title, its client's and supplier's usernames and the supplier's
      reputation. */
  datatype OrderRow = OrderRow(finalPrice: real, title: string, client: string, supplier: string, supplierRating: Option<real>)

  /** An order's category: the first space-separated word of its RFQ's
      title. Splitting never yields an empty list, so the `General` fallback
      of the source is never taken. */
  function Category(title: string): (c: string)
    ensures ' ' !in c
  {
    Text.Split(title, ' ')[0]
  }

  /** The category is the title up to its first space. */
  lemma CategoryIsFirstWord(title: string)
    ensures |Category(title)| <= |title| && title[..|Category(title)|] == Category(title)
    ensures |Category(title)| < |title| ==> title[|Category(title)|] == ' '
  {
    var parts := Text.Split(title, ' ');
    Text.JoinSplit(title, ' ');
    if |parts| > 1 {
      assert title == parts[0] + [' '] + Text.Join(parts[1..], ' ');
    }
  }

  /** The three breakdowns of the report. */
  datatype Field = ByCategory | ByClient | BySupplier

  function KeyOf(row: OrderRow, f: Field): string {
    match f
    case ByCategory => Category(row.title)
    case ByClient => row.client
    case BySupplier => row.supplier
  }

  /** The rating a breakdown's entry records when it is created: the
      supplier's reputation, or 0 when it has none. */
  function RatingOf(row: OrderRow, f: Field): real {
    if f == BySupplier then OrReal(row.supplierRating, 0.0) else 0.0
  }

  /** A breakdown's entry for one name. */
  datatype Tally = Tally(count: nat, revenue: real, commission: real, rating: real)

  /** A breakdown: the names in the order they first appeared, and an entry per name. */
  datatype Ledger = Ledger(names: seq<string>, tallies: map<string, Tally>)

  predicate Distinct<T(==)>(s: seq<T>) {
    forall i, j :: 0 <= i < j < |s| ==> s[i] != s[j]
  }

  predicate LedgerOk(l: Ledger) {
    && Distinct(l.names)
    && (forall x :: x in l.tallies ==> x in l.names)
    && (forall x :: x in l.names ==> x in l.tallies)
  }

  /** Counts one order of value `price` for `name`. */
  function Record(l: Ledger, name: string, price: real, rating: real): Ledger {
    if name in l.tallies then
      var t := l.tallies[name];
      l.(tallies := l.tallies[name := Tally(t.count + 1, t.revenue + price, t.commission + Commission(price), t.rating)])
    else
      Ledger(l.names + [name], l.tallies[name := Tally(1, price, Commission(price), rating)])
  }

  /** The breakdown after counting `rows` in order. */
  function LedgerOf(rows: seq<OrderRow>, f: Field): Ledger
    decreases |rows|
  {
    if rows == [] then Ledger([], map[])
    else
      var n := |rows| - 1;
      Record(LedgerOf(rows[..n], f), KeyOf(rows[n], f), rows[n].finalPrice, RatingOf(rows[n], f))
  }

  /** Reference sums over the rows, overall and for one name. */
  function SumPrices(rows: seq<OrderRow>): real
    decreases |rows|
  {
    if rows == [] then 0.0 else SumPrices(rows[..|rows| - 1]) + rows[|rows| - 1].finalPrice
  }

  function SumCommission(rows: seq<OrderRow>): real
    decreases |rows|
  {
    if rows == [] then 0.0 else SumCommission(rows[..|rows| - 1]) + Commission(rows[|rows| - 1].finalPrice)
  }

  function CountOf(rows: seq<OrderRow>, f: Field, name: string): nat
    decreases |rows|
  {
    if rows == [] then 0
    else CountOf(rows[..|rows| - 1], f, name) + (if KeyOf(rows[|rows| - 1], f) == name then 1 else 0)
  }

  function RevenueOf(rows: seq<OrderRow>, f: Field, name: string): real
    decreases |rows|
  {
    if rows == [] then 0.0
    else RevenueOf(rows[..|rows| - 1], f, name) + (if KeyOf(rows[|rows| - 1], f) == name then rows[|rows| - 1].finalPrice else 0.0)
  }

  function CommissionOf(rows: seq<OrderRow>, f: Field, name: string): real
    decreases |rows|
  {
    if rows == [] then 0.0
    else CommissionOf(rows[..|rows| - 1], f, name)
         + (if KeyOf(rows[|rows| - 1], f) == name then Commission(rows[|rows| - 1].finalPrice) else 0.0)
  }

  predicate Occurs(rows: seq<OrderRow>, f: Field, name: string) {
    exists i :: 0 <= i < |rows| && KeyOf(rows[i], f) == name
  }

  /** Counting an order keeps a breakdown well formed and adds its name. */
  lemma RecordKeys(l: Ledger, name: string, price: real, rating: real)
    requires LedgerOk(l)
    ensures LedgerOk(Record(l, name, price, rating))
    ensures forall x :: x in Record(l, name, price, rating).tallies <==> x in l.tallies || x == name
  {
    if name !in l.tallies {
      var names := l.names + [name];
      forall i, j | 0 <= i < j < |names| ensures names[i] != names[j] {
        if j == |l.names| {
          assert names[i] == l.names[i] && names[i] in l.names;
        }
      }
    }
  }

  lemma OccursSnoc(rows: seq<OrderRow>, f: Field, x: string)
    requires rows != []
    ensures Occurs(rows, f, x) <==> Occurs(rows[..|rows| - 1], f, x) || KeyOf(rows[|rows| - 1], f) == x
  {
    var prev := rows[..|rows| - 1];
    if Occurs(prev, f, x) {
      var i :| 0 <= i < |prev| && KeyOf(prev[i], f) == x;
      assert KeyOf(rows[i], f) == x;
    }
    if Occurs(rows, f, x) && KeyOf(rows[|rows| - 1], f) != x {
      var i :| 0 <= i < |rows| && KeyOf(rows[i], f) == x;
      assert KeyOf(prev[i], f) == x;
    }
  }

  /** The breakdown lists each name of the rows once, and nothing else. */
  lemma {:induction false} LedgerOfKeys(rows: seq<OrderRow>, f: Field)
    ensures LedgerOk(LedgerOf(rows, f))
    ensures forall x :: x in LedgerOf(rows, f).tallies <==> Occurs(rows, f, x)
    decreases |rows|
  {
    if rows != [] {
      var n := |rows| - 1;
      LedgerOfKeys(rows[..n], f);
      RecordKeys(LedgerOf(rows[..n], f), KeyOf(rows[n], f), rows[n].finalPrice, RatingOf(rows[n], f));
      forall x ensures x in LedgerOf(rows, f).tallies <==> Occurs(rows, f, x) {
        OccursSnoc(rows, f, x);
      }
    }
  }

  /** Each entry holds the number of orders, the revenue and the commission
      of its name; names not in the breakdown have none. */
  lemma LedgerOfSums(rows: seq<OrderRow>, f: Field)
    ensures forall x :: x in LedgerOf(rows, f).tallies ==>
      var t := LedgerOf(rows, f).tallies[x];
      t.count == CountOf(rows, f, x) && t.revenue == RevenueOf(rows, f, x) && t.commission == CommissionOf(rows, f, x)
    ensures forall x :: x !in LedgerOf(rows, f).tallies ==>
      CountOf(rows, f, x) == 0 && RevenueOf(rows, f, x) == 0.0 && CommissionOf(rows, f, x) == 0.0
  {
    forall x {
      LedgerOfSumsAt(rows, f, x);
    }
  }

  /** The entry of one name, by induction on the rows. */
  lemma {:induction false} LedgerOfSumsAt(rows: seq<OrderRow>, f: Field, x: string)
    ensures x in LedgerOf(rows, f).tallies ==>
      var t := LedgerOf(rows, f).tallies[x];
      t.count == CountOf(rows, f, x) && t.revenue == RevenueOf(rows, f, x) && t.commission == CommissionOf(rows, f, x)
    ensures x !in LedgerOf(rows, f).tallies ==>
      CountOf(rows, f, x) == 0 && RevenueOf(rows, f, x) == 0.0 && CommissionOf(rows, f, x) == 0.0
    decreases |rows|
  {
    if rows != [] {
      var n := |rows| - 1;
      LedgerOfSumsAt(rows[..n], f, x);
      RecordTally(LedgerOf(rows[..n], f), KeyOf(rows[n], f), rows[n].finalPrice, RatingOf(rows[n], f), x);
    }
  }

  /** Counting one order for `name` adds it to that name's entry only. */
  lemma RecordTally(l: Ledger, name: string, price: real, rating: real, x: string)
    ensures x in Record(l, name, price, rating).tallies <==> x in l.tallies || x == name
    ensures x in Record(l, name, price, rating).tallies ==>
      var t := Record(l, name, price, rating).tallies[x];
      && t.count == (if x in l.tallies then l.tallies[x].count else 0) + (if x == name then 1 else 0)
      && t.revenue == (if x in l.tallies then l.tallies[x].revenue else 0.0) + (if x == name then price else 0.0)
      && t.commission == (if x in l.tallies then l.tallies[x].commission else 0.0) + (if x == name then Commission(price) else 0.0)
  {
  }

  /** A supplier's entry keeps the reputation read from that supplier's
      first order. */
  lemma {:induction false} LedgerOfRatings(rows: seq<OrderRow>, f: Field, i: nat)
    requires i < |rows|
    requires forall j :: 0 <= j < i ==> KeyOf(rows[j], f) != KeyOf(rows[i], f)
    ensures KeyOf(rows[i], f) in LedgerOf(rows, f).tallies
    ensures LedgerOf(rows, f).tallies[KeyOf(rows[i], f)].rating == RatingOf(rows[i], f)
    decreases |rows|
  {
    var n := |rows| - 1;
    var prev := rows[..n];
    var l := LedgerOf(prev, f);
    assert LedgerOf(rows, f) == Record(l, KeyOf(rows[n], f), rows[n].finalPrice, RatingOf(rows[n], f));
    if i == n {
      NotSeenBefore(rows, f, i);
      assert rows[..i] == prev;
      RecordKeepsRating(l, KeyOf(rows[n], f), rows[n].finalPrice, RatingOf(rows[n], f), KeyOf(rows[i], f));
    } else {
      FirstInPrefix(rows, f, i, n);
      LedgerOfRatings(prev, f, i);
      RecordKeepsRating(l, KeyOf(rows[n], f), rows[n].finalPrice, RatingOf(rows[n], f), KeyOf(rows[i], f));
    }
  }

  /** A name not met before row `i` has no entry before row `i`. */
  lemma NotSeenBefore(rows: seq<OrderRow>, f: Field, i: nat)
    requires i < |rows|
    requires forall j :: 0 <= j < i ==> KeyOf(rows[j], f) != KeyOf(rows[i], f)
    ensures KeyOf(rows[i], f) !in LedgerOf(rows[..i], f).tallies
  {
    LedgerOfKeys(rows[..i], f);
    assert !Occurs(rows[..i], f, KeyOf(rows[i], f)) by {
      forall j | 0 <= j < i ensures KeyOf(rows[..i][j], f) != KeyOf(rows[i], f) {
        assert rows[..i][j] == rows[j];
      }
    }
  }

  /** A first occurrence before `n` is one in the first `n` rows too. */
  lemma FirstInPrefix(rows: seq<OrderRow>, f: Field, i: nat, n: nat)
    requires i < n <= |rows|
    requires forall j :: 0 <= j < i ==> KeyOf(rows[j], f) != KeyOf(rows[i], f)
    ensures rows[..n][i] == rows[i]
    ensures forall j :: 0 <= j < i ==> KeyOf(rows[..n][j], f) != KeyOf(rows[..n][i], f)
  {
    forall j | 0 <= j < i ensures KeyOf(rows[..n][j], f) != KeyOf(rows[..n][i], f) {
      assert rows[..n][j] == rows[j];
    }
  }

  lemma RecordKeepsRating(l: Ledger, name: string, price: real, rating: real, x: string)
    requires x in l.tallies || x == name
    ensures x in Record(l, name, price, rating).tallies
    ensures Record(l, name, price, rating).tallies[x].rating == if x in l.tallies then l.tallies[x].rating else rating
  {
  }

  /** The total of a breakdown's counts, in the order of its names. */
  function SumCounts(names: seq<string>, m: map<string, Tally>): int
    requires forall x :: x in names ==> x in m
  {
    if names == [] then 0 else m[names[0]].count + SumCounts(names[1..], m)
  }

  lemma {:induction false} SumCountsOutside(names: seq<string>, m: map<string, Tally>, name: string, t: Tally)
    requires forall x :: x in names ==> x in m
    requires name !in names
    ensures SumCounts(names, m[name := t]) == SumCounts(names, m)
  {
    if names != [] {
      SumCountsOutside(names[1..], m, name, t);
    }
  }

  lemma {:induction false} SumCountsAppend(names: seq<string>, m: map<string, Tally>, name: string)
    requires forall x :: x in names ==> x in m
    requires name in m
    ensures SumCounts(names + [name], m) == SumCounts(names, m) + m[name].count
  {
    if names == [] {
      assert [] + [name] == [name];
    } else {
      assert (names + [name])[1..] == names[1..] + [name];
      SumCountsAppend(names[1..], m, name);
    }
  }

  lemma {:induction false} SumCountsBump(names: seq<string>, m: map<string, Tally>, name: string, t: Tally)
    requires forall x :: x in names ==> x in m
    requires name in names && Distinct(names)
    ensures SumCounts(names, m[name := t]) == SumCounts(names, m) - m[name].count + t.count
  {
    assert Distinct(names[1..]) by {
      forall i, j | 0 <= i < j < |names[1..]| ensures names[1..][i] != names[1..][j] {
        assert names[1..][i] == names[i + 1] && names[1..][j] == names[j + 1];
      }
    }
    if names[0] == name {
      forall k | 0 <= k < |names[1..]| ensures names[1..][k] != name {
        assert names[1..][k] == names[k + 1];
      }
      SumCountsOutside(names[1..], m, name, t);
    } else {
      SumCountsBump(names[1..], m, name, t);
    }
  }

  /** Counting one order adds one to the total of a breakdown's counts. */
  lemma RecordCounts(l: Ledger, name: string, price: real, rating: real)
    requires LedgerOk(l)
    ensures LedgerOk(Record(l, name, price, rating))
    ensures SumCounts(Record(l, name, price, rating).names, Record(l, name, price, rating).tallies)
         == SumCounts(l.names, l.tallies) + 1
  {
    RecordKeys(l, name, price, rating);
    if name in l.tallies {
      var t := l.tallies[name];
      SumCountsBump(l.names, l.tallies, name, Tally(t.count + 1, t.revenue + price, t.commission + Commission(price), t.rating));
    } else {
      var m := l.tallies[name := Tally(1, price, Commission(price), rating)];
      SumCountsOutside(l.names, l.tallies, name, m[name]);
      SumCountsAppend(l.names, m, name);
    }
  }

  /** The breakdown's counts add up to the number of orders. */
  lemma {:induction false} LedgerOfTotal(rows: seq<OrderRow>, f: Field)
    ensures LedgerOk(LedgerOf(rows, f))
    ensures SumCounts(LedgerOf(rows, f).names, LedgerOf(rows, f).tallies) == |rows|
    decreases |rows|
  {
    if rows != [] {
      var n := |rows| - 1;
      LedgerOfTotal(rows[..n], f);
      RecordCounts(LedgerOf(rows[..n], f), KeyOf(rows[n], f), rows[n].finalPrice, RatingOf(rows[n], f));
    }
  }

  /** With no negative price, the total commission lies between 5% and 10%
      of the total revenue. */
  lemma {:induction false} CommissionTotalBounds(rows: seq<OrderRow>)
    requires forall i :: 0 <= i < |rows| ==> rows[i].finalPrice >= 0.0
    ensures 0.05 * SumPrices(rows) <= SumCommission(rows) <= 0.10 * SumPrices(rows)
    decreases |rows|
  {
    if rows != [] {
      CommissionTotalBounds(rows[..|rows| - 1]);
    }
  }

  /** The running totals of the earnings handler. */
  datatype Totals = Totals(revenue: real, commission: real, categories: Ledger, clients: Ledger, suppliers: Ledger)

  /** The handler's pass over the completed orders: a running revenue and
      commission, and a breakdown by category, client and supplier. */
  method Tabulate(rows: seq<OrderRow>) returns (t: Totals)
    ensures t.revenue == SumPrices(rows) && t.commission == SumCommission(rows)
    ensures t.categories == LedgerOf(rows, ByCategory)
    ensures t.clients == LedgerOf(rows, ByClient)
    ensures t.suppliers == LedgerOf(rows, BySupplier)
  {
    var totalRevenue, totalCommission := 0.0, 0.0;
    var categories, clients, suppliers := Ledger([], map[]), Ledger([], map[]), Ledger([], map[]);
    var i := 0;
    while i < |rows|
      invariant 0 <= i <= |rows|
      invariant totalRevenue == SumPrices(rows[..i]) && totalCommission == SumCommission(rows[..i])
      invariant categories == LedgerOf(rows[..i], ByCategory)
      invariant clients == LedgerOf(rows[..i], ByClient)
      invariant suppliers == LedgerOf(rows[..i], BySupplier)
    {
      assert rows[..i + 1][..i] == rows[..i];
      var order := rows[i];
      var orderValue := order.finalPrice;
      var commission := Commission(orderValue);
      totalRevenue := totalRevenue + orderValue;
      totalCommission := totalCommission + commission;
      categories := Record(categories, Category(order.title), orderValue, 0.0);
      clients := Record(clients, order.client, orderValue, 0.0);
      suppliers := Record(suppliers, order.supplier, orderValue, OrReal(order.supplierRating, 0.0));
      i := i + 1;
    }
    assert rows[..i] == rows;
    t := Totals(totalRevenue, totalCommission, categories, clients, suppliers);
  }

  // ---------------------------------------------------------------- the report

  /** The `period` query: `today`, `week`, `month` and `year` restrict the
      report, anything else (the default `all` included) does not. */
  datatype Period = AllTime | Today | Week | Month | Year

  function ParsePeriod(q: string): Period {
    if q == "today" then Today
    else if q == "week" then Week
    else if q == "month" then Month
    else if q == "year" then Year
    else AllTime
  }

  const WeekMillis := 7 * 24 * 60 * 60 * 1000

  /** The report's first instant. The local midnight, first of the month and
      first of the year before `now` come from the calendar and are given. */
  function PeriodStart(p: Period, now: int, midnight: int, monthStart: int, yearStart: int): (r: Option<int>)
    ensures r.None? <==> p == AllTime
    ensures p == Week ==> r == Some(now - WeekMillis)
  {
    match p
    case Today => Some(midnight)
    case Week => Some(now - WeekMillis)
    case Month => Some(monthStart)
    case Year => Some(yearStart)
    case AllTime => None
  }

  /** An instant lies in the report's window. */
  predicate InWindow(t: int, start: Option<int>) {
    start.None? || t >= start.value
  }

  /** The orders the report covers: finalized or archived, created in the window. */
  function CompletedOrders(d: Db, start: Option<int>): set<Id> {
    set k | k in d.orders && (d.orders[k].status == Finalized || d.orders[k].status == Archived)
              && InWindow(d.orders[k].createdAt, start)
  }

  function RfqsSince(d: Db, start: Option<int>): set<Id> {
    set k | k in d.rfqs && InWindow(d.rfqs[k].createdAt, start)
  }

  function OpenRfqsSince(d: Db, start: Option<int>): set<Id> {
    set k | k in d.rfqs && InWindow(d.rfqs[k].createdAt, start) && IsOpen(d.rfqs[k].status)
  }

  function ClosedRfqsSince(d: Db, start: Option<int>): set<Id> {
    set k | k in d.rfqs && InWindow(d.rfqs[k].createdAt, start) && d.rfqs[k].status == Closed
  }

  function OffersSince(d: Db, start: Option<int>): set<Id> {
    set k | k in d.offers && InWindow(d.offers[k].submittedAt, start)
  }

  function AcceptedOffersSince(d: Db, start: Option<int>): set<Id> {
    set k | k in d.offers && InWindow(d.offers[k].submittedAt, start) && d.offers[k].status == Accepted
  }

  function NegotiationsSince(d: Db, start: Option<int>): set<Id> {
    set k | k in d.negotiations && InWindow(d.negotiations[k].createdAt, start)
  }

  function CompletedNegotiationsSince(d: Db, start: Option<int>): set<Id> {
    set k | k in d.negotiations && InWindow(d.negotiations[k].createdAt, start) && d.negotiations[k].status == Completed
  }

  /** A percentage, 0 when there is nothing to divide by. */
  function Percent(part: real, whole: real): real {
    if whole > 0.0 then part / whole * 100.0 else 0.0
  }

  function Average(total: real, n: nat): real {
    if n > 0 then total / n as real else 0.0
  }

  lemma PercentBounded(part: real, whole: real)
    requires 0.0 <= part <= whole
    ensures 0.0 <= Percent(part, whole) <= 100.0
    ensures whole == 0.0 ==> Percent(part, whole) == 0.0
    ensures whole > 0.0 ==> Percent(part, whole) * whole == part * 100.0
  {
    if whole > 0.0 {
      assert part / whole <= 1.0 by {
        assert part / whole * whole == part;
      }
    }
  }

  /** With no negative price, the average commission rate is between 5% and
      10% whenever there is revenue. */
  lemma AverageRateBounded(rows: seq<OrderRow>)
    requires forall i :: 0 <= i < |rows| ==> rows[i].finalPrice >= 0.0
    requires SumPrices(rows) > 0.0
    ensures 5.0 <= Percent(SumCommission(rows), SumPrices(rows)) <= 10.0
  {
    CommissionTotalBounds(rows);
    RatioBounds(SumCommission(rows), SumPrices(rows));
  }

  lemma RatioBounds(c: real, v: real)
    requires v > 0.0 && 0.05 * v <= c <= 0.10 * v
    ensures 5.0 <= Percent(c, v) <= 10.0
  {
    var q := c / v;
    assert q * v == c;
    if q < 0.05 {
      MulLess(q, 0.05, v);
    }
    if q > 0.10 {
      MulLess(0.10, q, v);
    }
  }

  lemma MulLess(a: real, b: real, v: real)
    requires v > 0.0 && a < b
    ensures a * v < b * v
  {
    assert (b - a) * v > 0.0;
  }

  /** One line of a breakdown. */
  datatype Entry = Entry(name: string, tally: Tally)

  function EntryRevenue(e: Entry): real {
    e.tally.revenue
  }

  /** The breakdown's lines, in the order the names first appeared. */
  function EntriesOf(names: seq<string>, m: map<string, Tally>): (r: seq<Entry>)
    requires forall x :: x in names ==> x in m
    ensures |r| == |names|
    ensures forall k :: 0 <= k < |r| ==> r[k] == Entry(names[k], m[names[k]])
  {
    if names == [] then [] else [Entry(names[0], m[names[0]])] + EntriesOf(names[1..], m)
  }

  datatype Summary = Summary(totalOrders: nat, totalRevenue: real, totalCommission: real, avgOrderValue: real,
                             avgCommissionRate: real)
  datatype RfqStats = RfqStats(total: nat, published: nat, closed: nat, conversionRate: real)
  /** A count, the part of it that succeeded, and the part as a percentage. */
  datatype Share = Share(total: nat, part: nat, rate: real)
  /** `part` of `total` with its rate: 0 when the total is 0, otherwise the
      part as a percentage of the total. */
  function ShareOf(total: nat, part: nat): (r: Share)
    requires part <= total
    ensures r.total == total && r.part == part && 0.0 <= r.rate <= 100.0
    ensures total == 0 ==> r.rate == 0.0
    ensures total > 0 ==> r.rate * total as real == part as real * 100.0
  {
    PercentBounded(part as real, total as real);
    Share(total, part, Percent(part as real, total as real))
  }

  /** A positive whole times the percentage is a hundred times the part. */
  lemma PercentScales(part: real, whole: real)
    requires whole > 0.0
    ensures Percent(part, whole) * whole == part * 100.0
  {
    assert part / whole * whole == part;
  }

  /** The summary block: the totals, the average order value (0 with no
      orders) and the average commission rate (0 with no revenue). */
  function SummaryOf(n: nat, revenue: real, commission: real): (r: Summary)
    ensures r.totalOrders == n && r.totalRevenue == revenue && r.totalCommission == commission
    ensures n == 0 ==> r.avgOrderValue == 0.0
    ensures n > 0 ==> r.avgOrderValue * n as real == revenue
    ensures revenue <= 0.0 ==> r.avgCommissionRate == 0.0
    ensures revenue > 0.0 ==> r.avgCommissionRate * revenue == commission * 100.0
    ensures r.avgOrderValue == Average(revenue, n) && r.avgCommissionRate == Percent(commission, revenue)
  {
    assert revenue > 0.0 ==> Percent(commission, revenue) * revenue == commission * 100.0 by {
      if revenue > 0.0 {
        PercentScales(commission, revenue);
      }
    }
    assert n > 0 ==> Average(revenue, n) * n as real == revenue;
    Summary(n, revenue, commission, Average(revenue, n), Percent(commission, revenue))
  }

  /** The RFQ block: the window's RFQs, the open and closed ones among them,
      and the orders as a percentage of the RFQs (0 with no RFQs). */
  function RfqStatsOf(total: nat, published: nat, closed: nat, n: nat): (r: RfqStats)
    ensures r.total == total && r.published == published && r.closed == closed
    ensures total == 0 ==> r.conversionRate == 0.0
    ensures total > 0 ==> r.conversionRate * total as real == n as real * 100.0
    ensures r.conversionRate == Percent(n as real, total as real)
  {
    assert total > 0 ==> Percent(n as real, total as real) * total as real == n as real * 100.0 by {
      if total > 0 {
        PercentScales(n as real, total as real);
      }
    }
    RfqStats(total, published, closed, Percent(n as real, total as real))
  }

  /** The RFQ block of the window. */
  function RfqBlock(d: Db, start: Option<int>, n: nat): (r: RfqStats)
    ensures r.total == |RfqsSince(d, start)|
    ensures r.published == |OpenRfqsSince(d, start)| && r.closed == |ClosedRfqsSince(d, start)|
    ensures r.published + r.closed <= r.total
    ensures r.total == 0 ==> r.conversionRate == 0.0
    ensures r.total > 0 ==> r.conversionRate * r.total as real == n as real * 100.0
    ensures r.conversionRate == Percent(n as real, r.total as real)
  {
    var rfqs, open, closed := RfqsSince(d, start), OpenRfqsSince(d, start), ClosedRfqsSince(d, start);
    assert open * closed == {};
    Seqs.SubsetCard(open + closed, rfqs);
    RfqStatsOf(|rfqs|, |open|, |closed|, n)
  }

  /** The offers of the window, the accepted ones as the part. */
  function OfferShare(d: Db, start: Option<int>): (r: Share)
    ensures r.total == |OffersSince(d, start)| && r.part == |AcceptedOffersSince(d, start)|
    ensures r.part <= r.total
    ensures r == ShareOf(r.total, r.part)
  {
    Seqs.SubsetCard(AcceptedOffersSince(d, start), OffersSince(d, start));
    ShareOf(|OffersSince(d, start)|, |AcceptedOffersSince(d, start)|)
  }

  /** The negotiations of the window, the completed ones as the part. */
  function NegotiationShare(d: Db, start: Option<int>): (r: Share)
    ensures r.total == |NegotiationsSince(d, start)| && r.part == |CompletedNegotiationsSince(d, start)|
    ensures r.part <= r.total
    ensures r == ShareOf(r.total, r.part)
  {
    Seqs.SubsetCard(CompletedNegotiationsSince(d, start), NegotiationsSince(d, start));
    ShareOf(|NegotiationsSince(d, start)|, |CompletedNegotiationsSince(d, start)|)
  }

  /** `entries.sort(by revenue, highest first).slice(0, 5)`. */
  function TopFive(entries: seq<Entry>): (r: seq<Entry>)
    ensures |r| == if |entries| < 5 then |entries| else 5
    ensures Seqs.SortedDesc(r, EntryRevenue) && multiset(r) <= multiset(entries)
    ensures forall e :: e in entries && e !in r ==> forall k :: 0 <= k < |r| ==> EntryRevenue(e) <= EntryRevenue(r[k])
  {
    Seqs.TopN(entries, 5, EntryRevenue)
  }

  /** Entries with the same revenue keep their first-seen order: those kept
      are the first ones of that revenue. */
  lemma TopFiveTiesInOrder(entries: seq<Entry>, v: real)
    ensures Seqs.Filter(TopFive(entries), Seqs.KeyIs(EntryRevenue, v)) <= Seqs.Filter(entries, Seqs.KeyIs(EntryRevenue, v))
  {
    Seqs.TopNStable(entries, 5, EntryRevenue, v);
  }

  datatype Report = Report(summary: Summary, rfqStats: RfqStats, offerStats: Share, negotiationStats: Share,
                           categoryBreakdown: seq<Entry>, topClients: seq<Entry>, topSuppliers: seq<Entry>)

  /** The report from the totals of `n` completed orders: every category
      by revenue, the five best clients and suppliers by revenue (ties in
      first-seen order), and the ratios of the window's counts. */
  function BuildReport(d: Db, start: Option<int>, t: Totals, n: nat): (r: Report)
    requires LedgerOk(t.categories) && LedgerOk(t.clients) && LedgerOk(t.suppliers)
    ensures r.summary.totalOrders == n && r.summary.totalRevenue == t.revenue && r.summary.totalCommission == t.commission
    ensures n == 0 ==> r.summary.avgOrderValue == 0.0
    ensures r.summary.avgOrderValue == Average(t.revenue, n)
    ensures t.revenue <= 0.0 ==> r.summary.avgCommissionRate == 0.0
    ensures r.summary.avgCommissionRate == Percent(t.commission, t.revenue)
    ensures r.rfqStats.total == |RfqsSince(d, start)|
    ensures r.rfqStats.published == |OpenRfqsSince(d, start)| && r.rfqStats.closed == |ClosedRfqsSince(d, start)|
    ensures r.rfqStats.total == 0 ==> r.rfqStats.conversionRate == 0.0
    ensures r.rfqStats.conversionRate == Percent(n as real, r.rfqStats.total as real)
    ensures r.rfqStats.published + r.rfqStats.closed <= r.rfqStats.total
    ensures r.offerStats.total == |OffersSince(d, start)| && r.offerStats.part == |AcceptedOffersSince(d, start)|
    ensures r.negotiationStats.total == |NegotiationsSince(d, start)|
         && r.negotiationStats.part == |CompletedNegotiationsSince(d, start)|
    ensures r.offerStats.part <= r.offerStats.total && 0.0 <= r.offerStats.rate <= 100.0
    ensures r.negotiationStats.part <= r.negotiationStats.total && 0.0 <= r.negotiationStats.rate <= 100.0
    ensures r.offerStats == ShareOf(r.offerStats.total, r.offerStats.part)
    ensures r.negotiationStats == ShareOf(r.negotiationStats.total, r.negotiationStats.part)
    ensures multiset(r.categoryBreakdown) == multiset(EntriesOf(t.categories.names, t.categories.tallies))
    ensures Seqs.SortedDesc(r.categoryBreakdown, EntryRevenue)
    ensures |r.topClients| == if |t.clients.names| < 5 then |t.clients.names| else 5
    ensures |r.topSuppliers| == if |t.suppliers.names| < 5 then |t.suppliers.names| else 5
    ensures Seqs.SortedDesc(r.topClients, EntryRevenue) && Seqs.SortedDesc(r.topSuppliers, EntryRevenue)
    ensures multiset(r.topClients) <= multiset(EntriesOf(t.clients.names, t.clients.tallies))
    ensures multiset(r.topSuppliers) <= multiset(EntriesOf(t.suppliers.names, t.suppliers.tallies))
    ensures forall e :: e in EntriesOf(t.clients.names, t.clients.tallies) && e !in r.topClients ==>
              forall k :: 0 <= k < |r.topClients| ==> EntryRevenue(e) <= EntryRevenue(r.topClients[k])
    ensures forall e :: e in EntriesOf(t.suppliers.names, t.suppliers.tallies) && e !in r.topSuppliers ==>
              forall k :: 0 <= k < |r.topSuppliers| ==> EntryRevenue(e) <= EntryRevenue(r.topSuppliers[k])
  {
    Report(
      SummaryOf(n, t.revenue, t.commission),
      RfqBlock(d, start, n),
      OfferShare(d, start),
      NegotiationShare(d, start),
      Seqs.SortDesc(EntriesOf(t.categories.names, t.categories.tallies), EntryRevenue),
      TopFive(EntriesOf(t.clients.names, t.clients.tallies)),
      TopFive(EntriesOf(t.suppliers.names, t.suppliers.tallies)))
  }

  /** An order whose RFQ, client and supplier rows all exist. */
  predicate Resolves(d: Db, k: Id) {
    k in d.orders && d.orders[k].rfqId in d.rfqs && d.orders[k].clientId in d.users && d.orders[k].supplierId in d.users
  }

  function RowOf(d: Db, k: Id): OrderRow
    requires Resolves(d, k)
  {
    var o := d.orders[k];
    OrderRow(o.finalPrice, d.rfqs[o.rfqId].title, d.users[o.clientId].username, d.users[o.supplierId].username,
             d.users[o.supplierId].profile.reputationScore)
  }

  function RowsOf(d: Db, ids: seq<Id>): (rows: seq<OrderRow>)
    requires forall i :: 0 <= i < |ids| ==> Resolves(d, ids[i])
    ensures |rows| == |ids|
    ensures forall i :: 0 <= i < |ids| ==> rows[i] == RowOf(d, ids[i])
  {
    if ids == [] then [] else [RowOf(d, ids[0])] + RowsOf(d, ids[1..])
  }

  function Elements<T>(s: seq<T>): set<T> {
    set x | x in s
  }

  lemma {:induction false} DistinctCard<T>(s: seq<T>)
    requires Distinct(s)
    ensures |Elements(s)| == |s|
  {
    if s != [] {
      assert Distinct(s[1..]) by {
        forall i, j | 0 <= i < j < |s[1..]| ensures s[1..][i] != s[1..][j] {
          assert s[1..][i] == s[i + 1] && s[1..][j] == s[j + 1];
        }
      }
      DistinctCard(s[1..]);
      assert Elements(s) == {s[0]} + Elements(s[1..]);
      assert s[0] !in Elements(s[1..]) by {
        forall k | 0 <= k < |s[1..]| ensures s[1..][k] != s[0] {
          assert s[1..][k] == s[k + 1];
        }
      }
    }
  }

  predicate AllResolve(d: Db, ids: seq<Id>) {
    forall i :: 0 <= i < |ids| ==> Resolves(d, ids[i])
  }

  lemma EnumerationCard(d: Db, start: Option<int>, ids: seq<Id>)
    requires Distinct(ids) && forall k :: k in ids <==> k in CompletedOrders(d, start)
    ensures |CompletedOrders(d, start)| == |ids|
  {
    DistinctCard(ids);
    var listed := Elements(ids);
    assert forall x :: x in listed <==> x in CompletedOrders(d, start);
    assert |listed| == |ids|;
    assert listed == CompletedOrders(d, start);
  }

  /** GET /api/statistics/earnings. `ids` are the completed orders of the
      window in the order the database returns them; an order whose RFQ,
      client or supplier is missing fails the handler. */
  method Earnings(d: Db, actor: Actor, start: Option<int>, ids: seq<Id>) returns (r: Outcome, report: Option<Report>)
    requires Distinct(ids) && forall k :: k in ids <==> k in CompletedOrders(d, start)
    ensures r == Ok <==> actor.role == Admin && AllResolve(d, ids)
    ensures actor.role != Admin ==> r == Forbidden
    ensures r != Ok ==> r == Forbidden || r == Internal
    ensures report.Some? <==> r == Ok
    ensures r == Ok ==>
      var rows := RowsOf(d, ids);
      report.value.summary.totalOrders == |CompletedOrders(d, start)|
      && report.value.summary.totalRevenue == SumPrices(rows)
      && report.value.summary.totalCommission == SumCommission(rows)
      && LedgerOk(LedgerOf(rows, ByCategory)) && LedgerOk(LedgerOf(rows, ByClient)) && LedgerOk(LedgerOf(rows, BySupplier))
      && report.value == BuildReport(d, start, Totals(SumPrices(rows), SumCommission(rows),
           LedgerOf(rows, ByCategory), LedgerOf(rows, ByClient), LedgerOf(rows, BySupplier)), |ids|)
  {
    if actor.role != Admin {
      return Forbidden, None;
    }
    if !AllResolve(d, ids) {
      return Internal, None;
    }
    var rows := RowsOf(d, ids);
    var t := Tabulate(rows);
    LedgerOfKeys(rows, ByCategory);
    LedgerOfKeys(rows, ByClient);
    LedgerOfKeys(rows, BySupplier);
    EnumerationCard(d, start, ids);
    r, report := Ok, Some(BuildReport(d, start, t, |rows|));
  }
}
