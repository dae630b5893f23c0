/** The farmer's dashboard (`src/pages/farmer/Dashboard.tsx`): the stat cards,
    the status filter over the farmer's crops, the collapsed crop table, and
    the sales analytics built from the farmer's transactions: revenue by
    season, the top-selling crops and the revenue by retailer.

    Only completed transactions enter the analytics. Months are the calendar
    months 0..11 of a transaction's creation time, supplied by `monthOf`. */
module FarmerDashboard {
  import opened Basics
  import opened Store

  // ---------------------------------------------------------------------
  // Stat cards and the crop filter

  function HasStatus(s: CropStatus): Crop -> bool {
    (c: Crop) => c.status == s
  }

  datatype Stats = Stats(totalCrops: nat, availableCrops: nat, pendingOffers: nat, completedSales: nat)

  /** Every crop has exactly one of the three statuses. */
  lemma {:induction false} StatusCountsPartition(crops: seq<Crop>)
    ensures Count(crops, HasStatus(Available)) + Count(crops, HasStatus(CropStatus.Pending))
            + Count(crops, HasStatus(Sold)) == |crops|
  {
    if crops != [] {
      StatusCountsPartition(crops[1..]);
    }
  }

  /** The stat cards: the available and sold crops together with the pending
      ones make up all crops, and the pending-offers card always shows 0. */
  function DashboardStats(crops: seq<Crop>): (s: Stats)
    ensures s.totalCrops == |crops| && s.pendingOffers == 0
    ensures s.availableCrops + s.completedSales + Count(crops, HasStatus(CropStatus.Pending)) == s.totalCrops
    ensures s.availableCrops == Count(crops, HasStatus(Available))
    ensures s.completedSales == Count(crops, HasStatus(Sold))
  {
    StatusCountsPartition(crops);
    Stats(|crops|, Count(crops, HasStatus(Available)), 0, Count(crops, HasStatus(Sold)))
  }

  datatype CropFilter = AllCrops | OnlyStatus(status: CropStatus)

  /** `filteredCrops`: every crop for "all", otherwise exactly the crops of
      the chosen status, in their original order. */
  function FilteredCrops(crops: seq<Crop>, f: CropFilter): (r: seq<Crop>)
    ensures f == AllCrops ==> r == crops
    ensures forall c :: c in r <==> c in crops && (f.AllCrops? || c.status == f.status)
    ensures f.OnlyStatus? ==> |r| == Count(crops, HasStatus(f.status))
  {
    if f == AllCrops then crops
    else
      FilterMembers(crops, HasStatus(f.status));
      Filter(crops, HasStatus(f.status))
  }

  /** The status filter keeps the crops' order: filtering a concatenation is
      concatenating the filtered parts. */
  lemma {:induction false} FilteredCropsKeepOrder(a: seq<Crop>, b: seq<Crop>, f: CropFilter)
    ensures FilteredCrops(a + b, f) == FilteredCrops(a, f) + FilteredCrops(b, f)
  {
    if f.OnlyStatus? {
      FilterAppend(a, b, HasStatus(f.status));
    }
  }

  function CreatedAt(c: Crop): int {
    c.createdAt
  }

  /** The crop table: all filtered crops when expanded, otherwise the five
      most recently created, newest first. */
  function CropTable(filtered: seq<Crop>, showAll: bool): (r: seq<Crop>)
    ensures showAll ==> r == filtered
    ensures !showAll ==> |r| == if |filtered| < 5 then |filtered| else 5
    ensures !showAll ==> SortedDesc(r, CreatedAt)
  {
    if showAll then filtered else Take(SortDesc(filtered, CreatedAt), 5)
  }

  /** The collapsed table shows only filtered crops, and a crop it leaves out
      is no newer than any crop it shows. */
  lemma {:induction false} CropTableShowsNewest(filtered: seq<Crop>)
    ensures forall c :: c in CropTable(filtered, false) ==> c in filtered
    ensures forall c :: c in filtered && c !in CropTable(filtered, false) ==>
              forall k :: 0 <= k < |CropTable(filtered, false)| ==> CropTable(filtered, false)[k].createdAt >= c.createdAt
  {
    TopOfSorted(filtered, CreatedAt, 5);
  }

  // ---------------------------------------------------------------------
  // Revenue by season

  datatype Season = Spring | Summer | Autumn | Winter

  /** March to May is spring, June to August summer, September to November
      autumn, and every other month winter. */
  function SeasonOf(month: int): Season {
    if 2 <= month <= 4 then Spring
    else if 5 <= month <= 7 then Summer
    else if 8 <= month <= 10 then Autumn
    else Winter
  }

  /** The rows of the seasonal table, in this order. */
  const Seasons: seq<Season> := [Spring, Summer, Autumn, Winter]

  predicate IsCompleted(t: Transaction) {
    t.status == TxStatus.Completed
  }

  function Amount(t: Transaction): int {
    t.amount
  }

  function InSeason(s: Season, monthOf: Timestamp -> int): Transaction -> bool {
    (t: Transaction) => IsCompleted(t) && SeasonOf(monthOf(t.createdAt)) == s
  }

  /** The revenue and the number of the completed transactions of a season. */
  function SeasonRevenue(txs: seq<Transaction>, s: Season, monthOf: Timestamp -> int): int {
    Sum(Filter(txs, InSeason(s, monthOf)), Amount)
  }

  function SeasonCount(txs: seq<Transaction>, s: Season, monthOf: Timestamp -> int): nat {
    Count(txs, InSeason(s, monthOf))
  }

  datatype SeasonRow = SeasonRow(season: Season, revenue: int, count: nat)

  /** The seasonal dictionary after the `forEach` has filed `txs`: every
      completed transaction adds its amount and one sale to its season. */
  function SeasonData(txs: seq<Transaction>, monthOf: Timestamp -> int): (data: map<Season, (int, nat)>)
    ensures data.Keys == {Spring, Summer, Autumn, Winter}
    decreases |txs|
  {
    if txs == [] then map[Spring := (0, 0), Summer := (0, 0), Autumn := (0, 0), Winter := (0, 0)]
    else
      var data := SeasonData(txs[..|txs| - 1], monthOf);
      var t := txs[|txs| - 1];
      var season := SeasonOf(monthOf(t.createdAt));
      if IsCompleted(t) then data[season := (data[season].0 + t.amount, data[season].1 + 1)] else data
  }

  /** Filing one more transaction adds to its own season only, and only
      when it is completed. */
  lemma {:induction false} SeasonStep(init: seq<Transaction>, t: Transaction, monthOf: Timestamp -> int, s: Season)
    ensures SeasonRevenue(init + [t], s, monthOf)
            == SeasonRevenue(init, s, monthOf) + (if IsCompleted(t) && SeasonOf(monthOf(t.createdAt)) == s then t.amount else 0)
    ensures SeasonCount(init + [t], s, monthOf)
            == SeasonCount(init, s, monthOf) + (if IsCompleted(t) && SeasonOf(monthOf(t.createdAt)) == s then 1 else 0)
  {
    FilterSnoc(init, t, InSeason(s, monthOf), Amount);
  }

  /** The entry of each season holds its revenue and number of sales. */
  lemma {:induction false} SeasonDataTotals(txs: seq<Transaction>, monthOf: Timestamp -> int, s: Season)
    ensures SeasonData(txs, monthOf)[s] == (SeasonRevenue(txs, s, monthOf), SeasonCount(txs, s, monthOf))
    decreases |txs|
  {
    if txs == [] {
      assert Filter(txs, InSeason(s, monthOf)) == [];
    } else {
      var init := txs[..|txs| - 1];
      var t := txs[|txs| - 1];
      assert txs == init + [t];
      SeasonDataTotals(init, monthOf, s);
      SeasonStep(init, t, monthOf, s);
    }
  }

  /** `processSeasonalRevenue`: the four seasons in their fixed order, each
      with the revenue and number of the completed transactions made in it. */
  method SeasonalRevenue(txs: seq<Transaction>, monthOf: Timestamp -> int) returns (rows: seq<SeasonRow>)
    ensures |rows| == 4
    ensures forall i :: 0 <= i < 4 ==> rows[i].season == Seasons[i]
    ensures forall i :: 0 <= i < 4 ==>
              rows[i].revenue == SeasonRevenue(txs, rows[i].season, monthOf)
              && rows[i].count == SeasonCount(txs, rows[i].season, monthOf)
  {
    var data: map<Season, (int, nat)> := map[Spring := (0, 0), Summer := (0, 0), Autumn := (0, 0), Winter := (0, 0)];
    for i := 0 to |txs|
      invariant data == SeasonData(txs[..i], monthOf)
    {
      var t := txs[i];
      var season := SeasonOf(monthOf(t.createdAt));
      assert SeasonData(txs[..i + 1], monthOf)
             == if IsCompleted(t) then data[season := (data[season].0 + t.amount, data[season].1 + 1)] else data
      by {
        assert txs[..i + 1][..i] == txs[..i];
      }
      if t.status == TxStatus.Completed {
        data := data[season := (data[season].0 + t.amount, data[season].1 + 1)];
      }
    }
    assert txs[..|txs|] == txs;
    rows := [SeasonRow(Spring, data[Spring].0, data[Spring].1), SeasonRow(Summer, data[Summer].0, data[Summer].1),
             SeasonRow(Autumn, data[Autumn].0, data[Autumn].1), SeasonRow(Winter, data[Winter].0, data[Winter].1)];
    forall i | 0 <= i < 4
      ensures rows[i].revenue == SeasonRevenue(txs, rows[i].season, monthOf)
              && rows[i].count == SeasonCount(txs, rows[i].season, monthOf)
    {
      SeasonDataTotals(txs, monthOf, rows[i].season);
    }
  }

  /** Nothing is lost or counted twice: the seasonal revenues add up to the
      revenue of all completed transactions, and the seasonal counts to their
      number. */
  lemma {:induction false} SeasonsConserve(txs: seq<Transaction>, monthOf: Timestamp -> int)
    ensures SeasonRevenue(txs, Spring, monthOf) + SeasonRevenue(txs, Summer, monthOf)
            + SeasonRevenue(txs, Autumn, monthOf) + SeasonRevenue(txs, Winter, monthOf)
            == Sum(Filter(txs, IsCompleted), Amount)
    ensures SeasonCount(txs, Spring, monthOf) + SeasonCount(txs, Summer, monthOf)
            + SeasonCount(txs, Autumn, monthOf) + SeasonCount(txs, Winter, monthOf)
            == Count(txs, IsCompleted)
  {
    if txs != [] {
      var t := txs[|txs| - 1];
      var init := txs[..|txs| - 1];
      assert txs == init + [t];
      SeasonsConserve(init, monthOf);
      FilterSnoc(init, t, IsCompleted, Amount);
      SeasonStep(init, t, monthOf, Spring);
      SeasonStep(init, t, monthOf, Summer);
      SeasonStep(init, t, monthOf, Autumn);
      SeasonStep(init, t, monthOf, Winter);
    }
  }

  /** The "Top Season" card: the first season of largest revenue (a later
      season must earn strictly more to take its place), or none when the
      table is empty. */
  function TopSeason(rows: seq<SeasonRow>): (r: Option<Season>)
    ensures r.None? <==> rows == []
    ensures r.Some? ==> exists i :: BestAt(rows, i) && rows[i].season == r.value
  {
    if rows == [] then None
    else
      var b := BestIndex(rows, |rows|);
      assert rows[..|rows|] == rows;
      assert BestAt(rows, b);
      Some(rows[b].season)
  }

  /** `i` holds the largest revenue of `rows`, and every earlier row earns
      strictly less. */
  predicate BestAt(rows: seq<SeasonRow>, i: int) {
    && 0 <= i < |rows|
    && (forall j :: 0 <= j < |rows| ==> rows[j].revenue <= rows[i].revenue)
    && (forall j :: 0 <= j < i ==> rows[j].revenue < rows[i].revenue)
  }

  /** The reduce over the first `n` rows. */
  function BestIndex(rows: seq<SeasonRow>, n: nat): (b: nat)
    requires 0 < n <= |rows|
    ensures BestAt(rows[..n], b)
  {
    if n == 1 then 0
    else
      var b := BestIndex(rows, n - 1);
      assert rows[..n - 1] == rows[..n][..n - 1];
      if rows[n - 1].revenue > rows[b].revenue then n - 1 else b
  }

  // ---------------------------------------------------------------------
  // Grouping completed sales

  /** One entry of a sales dictionary: the revenue and the number of sales
      filed under a name. */
  datatype Bucket = Bucket(name: string, revenue: int, count: nat)

  function Revenue(b: Bucket): int {
    b.revenue
  }

  function Sales(b: Bucket): int {
    b.count
  }

  /** The completed transactions the grouping files under `name`. A name the
      dictionary inherits (`constructor`, `toString`, ...) already answers
      `data[name]` with a member of `Object.prototype`, so no entry is created
      for it and its sales never reach the entries `Object.entries` lists. */
  function FiledAs(key: Transaction -> Option<string>, name: string): Transaction -> bool {
    (t: Transaction) => IsCompleted(t) && key(t) == Some(name) && name !in InheritedNames
  }

  /** The completed transactions the grouping files at all. */
  function Filed(key: Transaction -> Option<string>): Transaction -> bool {
    (t: Transaction) => IsCompleted(t) && key(t).Some? && key(t).value !in InheritedNames
  }

  /** A sale under an inherited name shows in no entry: nothing is counted or
      earned under that name. */
  lemma {:induction false} InheritedNamesDropped(txs: seq<Transaction>, key: Transaction -> Option<string>, name: string)
    requires name in InheritedNames
    ensures GroupCount(txs, key, name) == 0 && GroupRevenue(txs, key, name) == 0
  {
    FilterNone(txs, FiledAs(key, name));
  }

  function GroupRevenue(txs: seq<Transaction>, key: Transaction -> Option<string>, name: string): int {
    Sum(Filter(txs, FiledAs(key, name)), Amount)
  }

  function GroupCount(txs: seq<Transaction>, key: Transaction -> Option<string>, name: string): nat {
    Count(txs, FiledAs(key, name))
  }

  predicate HasBucket(groups: seq<Bucket>, name: string) {
    exists k :: 0 <= k < |groups| && groups[k].name == name
  }

  function IndexOfName(groups: seq<Bucket>, name: string): (r: Option<nat>)
    ensures r.None? <==> !HasBucket(groups, name)
    ensures r.Some? ==> r.value < |groups| && groups[r.value].name == name
  {
    if groups == [] then None
    else if groups[|groups| - 1].name == name then Some(|groups| - 1)
    else
      var r := IndexOfName(groups[..|groups| - 1], name);
      assert forall k :: 0 <= k < |groups| - 1 ==> groups[..|groups| - 1][k] == groups[k];
      r
  }

  /** `data[name].revenue += amount; data[name].count += 1`, creating the
      entry (at the end) when the name is new. */
  function Bump(groups: seq<Bucket>, name: string, amount: int): seq<Bucket> {
    match IndexOfName(groups, name)
    case Some(k) => groups[k := Bucket(name, groups[k].revenue + amount, groups[k].count + 1)]
    case None => groups + [Bucket(name, amount, 1)]
  }

  /** The dictionary the `forEach` builds: each transaction that is filed
      bumps the entry of its name. */
  function Grouped(txs: seq<Transaction>, key: Transaction -> Option<string>): seq<Bucket>
    decreases |txs|
  {
    if txs == [] then []
    else
      var init := Grouped(txs[..|txs| - 1], key);
      var t := txs[|txs| - 1];
      if Filed(key)(t) then Bump(init, key(t).value, t.amount) else init
  }

  /** An entry holds the revenue and the (positive) number of sales filed
      under its name. */
  ghost predicate EntryRight(txs: seq<Transaction>, key: Transaction -> Option<string>, b: Bucket) {
    b.revenue == GroupRevenue(txs, key, b.name) && b.count == GroupCount(txs, key, b.name) > 0
  }

  ghost predicate EntriesRight(txs: seq<Transaction>, key: Transaction -> Option<string>, groups: seq<Bucket>) {
    forall k :: 0 <= k < |groups| ==> EntryRight(txs, key, groups[k])
  }

  /** Some filed sale goes under `name`. */
  ghost predicate NameUsed(txs: seq<Transaction>, key: Transaction -> Option<string>, name: string) {
    GroupCount(txs, key, name) > 0
  }

  /** Every name with a sale has an entry. */
  ghost predicate Covers(txs: seq<Transaction>, key: Transaction -> Option<string>, groups: seq<Bucket>) {
    forall name {:trigger NameUsed(txs, key, name)} :: NameUsed(txs, key, name) ==> HasBucket(groups, name)
  }

  predicate DistinctNames(groups: seq<Bucket>) {
    forall k, l :: 0 <= k < l < |groups| ==> groups[k].name != groups[l].name
  }

  /** The entries add up to the revenue and number of all filed sales. */
  ghost predicate TotalsRight(txs: seq<Transaction>, key: Transaction -> Option<string>, groups: seq<Bucket>) {
    Sum(groups, Revenue) == Sum(Filter(txs, Filed(key)), Amount) && Sum(groups, Sales) == Count(txs, Filed(key))
  }

  /** The dictionary after the transactions `txs`: one entry per name in use,
      names distinct, each entry holding its name's revenue and sales, the
      totals holding those of every filed transaction. */
  ghost predicate Tallied(txs: seq<Transaction>, key: Transaction -> Option<string>, groups: seq<Bucket>) {
    EntriesRight(txs, key, groups) && Covers(txs, key, groups) && DistinctNames(groups) && TotalsRight(txs, key, groups)
  }

  lemma {:induction false} SumSnoc<T>(s: seq<T>, x: T, f: T -> int)
    ensures Sum(s + [x], f) == Sum(s, f) + f(x)
  {
    SumAppend(s, [x], f);
    assert [x][1..] == [];
  }

  /** The share of one more transaction in the totals of a name. */
  lemma {:induction false} GroupStep(txs: seq<Transaction>, t: Transaction, key: Transaction -> Option<string>, name: string)
    ensures GroupRevenue(txs + [t], key, name) == GroupRevenue(txs, key, name) + (if FiledAs(key, name)(t) then t.amount else 0)
    ensures GroupCount(txs + [t], key, name) == GroupCount(txs, key, name) + (if FiledAs(key, name)(t) then 1 else 0)
  {
    FilterSnoc(txs, t, FiledAs(key, name), Amount);
  }

  /** An entry whose name `t` is not filed under stays right. */
  lemma {:induction false} EntryKept(txs: seq<Transaction>, t: Transaction, key: Transaction -> Option<string>, b: Bucket)
    requires EntryRight(txs, key, b) && !FiledAs(key, b.name)(t)
    ensures EntryRight(txs + [t], key, b)
  {
    GroupStep(txs, t, key, b.name);
  }

  /** The dictionary the `forEach` builds is tallied. */
  lemma {:induction false} GroupedTallied(txs: seq<Transaction>, key: Transaction -> Option<string>)
    ensures Tallied(txs, key, Grouped(txs, key))
  {
    if txs == [] {
      assert Filter(txs, Filed(key)) == [];
      forall name
        ensures !NameUsed(txs, key, name)
      {
        assert Filter(txs, FiledAs(key, name)) == [];
      }
    } else {
      var init := txs[..|txs| - 1];
      var t := txs[|txs| - 1];
      assert txs == init + [t];
      assert Grouped(txs, key) == if Filed(key)(t) then Bump(Grouped(init, key), key(t).value, t.amount) else Grouped(init, key);
      GroupedTallied(init, key);
      TallyStep(init, t, key, Grouped(init, key));
    }
  }

  /** Filing one more transaction keeps the dictionary tallied. */
  lemma {:induction false} TallyStep(txs: seq<Transaction>, t: Transaction, key: Transaction -> Option<string>,
                                     groups: seq<Bucket>)
    requires Tallied(txs, key, groups)
    ensures Tallied(txs + [t], key, if Filed(key)(t) then Bump(groups, key(t).value, t.amount) else groups)
  {
    if !Filed(key)(t) {
      TallyUnfiled(txs, t, key, groups);
    } else {
      var name := key(t).value;
      match IndexOfName(groups, name)
      case Some(k) =>
        var next := groups[k := Bucket(groups[k].name, groups[k].revenue + t.amount, groups[k].count + 1)];
        assert Bump(groups, name, t.amount) == next;
        TallyExisting(txs, t, key, groups, k);
      case None =>
        assert Bump(groups, name, t.amount) == groups + [Bucket(name, t.amount, 1)];
        TallyNew(txs, t, key, groups);
    }
  }

  lemma {:induction false} TallyUnfiled(txs: seq<Transaction>, t: Transaction, key: Transaction -> Option<string>,
                                        groups: seq<Bucket>)
    requires Tallied(txs, key, groups) && !Filed(key)(t)
    ensures Tallied(txs + [t], key, groups)
  {
    FilterSnoc(txs, t, Filed(key), Amount);
    forall j | 0 <= j < |groups|
      ensures EntryRight(txs + [t], key, groups[j])
    {
      EntryKept(txs, t, key, groups[j]);
    }
    forall name | NameUsed(txs + [t], key, name)
      ensures HasBucket(groups, name)
    {
      GroupStep(txs, t, key, name);
      assert NameUsed(txs, key, name);
    }
  }

  lemma {:induction false} TallyExisting(txs: seq<Transaction>, t: Transaction, key: Transaction -> Option<string>,
                                         groups: seq<Bucket>, k: nat)
    requires Tallied(txs, key, groups) && Filed(key)(t)
    requires k < |groups| && groups[k].name == key(t).value
    ensures Tallied(txs + [t], key, groups[k := Bucket(groups[k].name, groups[k].revenue + t.amount, groups[k].count + 1)])
  {
    ExistingTotals(txs, t, key, groups, k);
    ExistingEntries(txs, t, key, groups, k);
    ExistingCovers(txs, t, key, groups, k);
    RenamedNothing(groups, k, Bucket(groups[k].name, groups[k].revenue + t.amount, groups[k].count + 1));
  }

  /** Replacing an entry by one of the same name keeps the names distinct. */
  lemma {:induction false} RenamedNothing(groups: seq<Bucket>, k: nat, b: Bucket)
    requires DistinctNames(groups) && k < |groups| && b.name == groups[k].name
    ensures DistinctNames(groups[k := b])
  {
    assert forall j :: 0 <= j < |groups| ==> groups[k := b][j].name == groups[j].name;
  }

  lemma {:induction false} ExistingTotals(txs: seq<Transaction>, t: Transaction, key: Transaction -> Option<string>,
                                          groups: seq<Bucket>, k: nat)
    requires TotalsRight(txs, key, groups) && Filed(key)(t) && k < |groups|
    ensures TotalsRight(txs + [t], key, groups[k := Bucket(groups[k].name, groups[k].revenue + t.amount, groups[k].count + 1)])
  {
    var b := Bucket(groups[k].name, groups[k].revenue + t.amount, groups[k].count + 1);
    FilterSnoc(txs, t, Filed(key), Amount);
    SumUpdate(groups, k, b, Revenue);
    SumUpdate(groups, k, b, Sales);
  }

  lemma {:induction false} ExistingEntries(txs: seq<Transaction>, t: Transaction, key: Transaction -> Option<string>,
                                           groups: seq<Bucket>, k: nat)
    requires EntriesRight(txs, key, groups) && DistinctNames(groups) && Filed(key)(t)
    requires k < |groups| && groups[k].name == key(t).value
    ensures EntriesRight(txs + [t], key, groups[k := Bucket(groups[k].name, groups[k].revenue + t.amount, groups[k].count + 1)])
  {
    var next := groups[k := Bucket(groups[k].name, groups[k].revenue + t.amount, groups[k].count + 1)];
    forall j | 0 <= j < |next|
      ensures EntryRight(txs + [t], key, next[j])
    {
      if j == k {
        GroupStep(txs, t, key, groups[k].name);
      } else {
        assert groups[j].name != groups[k].name;
        EntryKept(txs, t, key, groups[j]);
      }
    }
  }

  lemma {:induction false} ExistingCovers(txs: seq<Transaction>, t: Transaction, key: Transaction -> Option<string>,
                                          groups: seq<Bucket>, k: nat)
    requires Covers(txs, key, groups) && Filed(key)(t)
    requires k < |groups| && groups[k].name == key(t).value
    ensures Covers(txs + [t], key, groups[k := Bucket(groups[k].name, groups[k].revenue + t.amount, groups[k].count + 1)])
  {
    var next := groups[k := Bucket(groups[k].name, groups[k].revenue + t.amount, groups[k].count + 1)];
    forall name | NameUsed(txs + [t], key, name)
      ensures HasBucket(next, name)
    {
      GroupStep(txs, t, key, name);
      if name == groups[k].name {
        assert next[k].name == name;
      } else {
        assert NameUsed(txs, key, name);
        var j :| 0 <= j < |groups| && groups[j].name == name;
        assert next[j].name == name;
      }
    }
  }

  lemma {:induction false} TallyNew(txs: seq<Transaction>, t: Transaction, key: Transaction -> Option<string>,
                                    groups: seq<Bucket>)
    requires Tallied(txs, key, groups) && Filed(key)(t) && !HasBucket(groups, key(t).value)
    ensures Tallied(txs + [t], key, groups + [Bucket(key(t).value, t.amount, 1)])
  {
    var b := Bucket(key(t).value, t.amount, 1);
    var next := groups + [b];
    FilterSnoc(txs, t, Filed(key), Amount);
    SumSnoc(groups, b, Revenue);
    SumSnoc(groups, b, Sales);
    NewEntries(txs, t, key, groups);
    NewCovers(txs, t, key, groups);
    forall i, j | 0 <= i < j < |next|
      ensures next[i].name != next[j].name
    {
      if j == |groups| {
        assert next[i] == groups[i];
      }
    }
  }

  lemma {:induction false} NewEntries(txs: seq<Transaction>, t: Transaction, key: Transaction -> Option<string>,
                                      groups: seq<Bucket>)
    requires EntriesRight(txs, key, groups) && Covers(txs, key, groups)
    requires Filed(key)(t) && !HasBucket(groups, key(t).value)
    ensures EntriesRight(txs + [t], key, groups + [Bucket(key(t).value, t.amount, 1)])
  {
    var name := key(t).value;
    var next := groups + [Bucket(name, t.amount, 1)];
    forall j | 0 <= j < |next|
      ensures EntryRight(txs + [t], key, next[j])
    {
      if j < |groups| {
        assert next[j] == groups[j] && groups[j].name != name;
        EntryKept(txs, t, key, groups[j]);
      } else {
        assert !NameUsed(txs, key, name);
        assert Filter(txs, FiledAs(key, name)) == [];
        GroupStep(txs, t, key, name);
      }
    }
  }

  lemma {:induction false} NewCovers(txs: seq<Transaction>, t: Transaction, key: Transaction -> Option<string>,
                                     groups: seq<Bucket>)
    requires Covers(txs, key, groups) && Filed(key)(t)
    ensures Covers(txs + [t], key, groups + [Bucket(key(t).value, t.amount, 1)])
  {
    var next := groups + [Bucket(key(t).value, t.amount, 1)];
    forall name | NameUsed(txs + [t], key, name)
      ensures HasBucket(next, name)
    {
      GroupStep(txs, t, key, name);
      if name == key(t).value {
        assert next[|groups|].name == name;
      } else {
        assert NameUsed(txs, key, name);
        var j :| 0 <= j < |groups| && groups[j].name == name;
        assert next[j].name == name;
      }
    }
  }

  /** The `forEach` that files each completed transaction under its name
      (transactions without one are dropped), into a dictionary whose entries
      keep the order in which their names first appear. */
  method GroupCompleted(txs: seq<Transaction>, key: Transaction -> Option<string>) returns (groups: seq<Bucket>)
    ensures Tallied(txs, key, groups)
  {
    groups := [];
    for i := 0 to |txs|
      invariant groups == Grouped(txs[..i], key)
    {
      var t := txs[i];
      assert txs[..i + 1][..i] == txs[..i];
      if t.status == TxStatus.Completed && key(t).Some? && key(t).value !in InheritedNames {
        groups := Bump(groups, key(t).value, t.amount);
      }
    }
    assert txs[..|txs|] == txs;
    GroupedTallied(txs, key);
  }

  // ---------------------------------------------------------------------
  // Top-selling crops and revenue by retailer

  /** The crop a completed sale is for: through the sale's offer (the first
      with its id) to the offer's crop (the first with its id). */
  function SaleCrop(t: Transaction, offers: seq<Offer>, crops: seq<Crop>): Option<Crop> {
    match Find(offers, (o: Offer) => o.id == t.offerId)
    case None => None
    case Some(o) => Find(crops, (c: Crop) => c.id == o.cropId)
  }

  function CropKey(offers: seq<Offer>, crops: seq<Crop>): Transaction -> Option<string> {
    (t: Transaction) => match SaleCrop(t, offers, crops) case None => None case Some(c) => Some(c.name)
  }

  /** A top-selling row: `quantity` is the number of sales (one per
      transaction) and `unit` the unit of the first crop sold under the name. */
  datatype CropSales = CropSales(name: string, revenue: int, quantity: nat, unit: string)

  function CropRevenue(r: CropSales): int {
    r.revenue
  }

  /** The unit of the first completed sale of a crop called `name`. */
  function FirstUnit(txs: seq<Transaction>, offers: seq<Offer>, crops: seq<Crop>, name: string): string {
    match Find(txs, FiledAs(CropKey(offers, crops), name))
    case None => ""
    case Some(t) => match SaleCrop(t, offers, crops) case None => "" case Some(c) => c.unit
  }

  predicate HasRow(rows: seq<CropSales>, name: string) {
    exists k :: 0 <= k < |rows| && rows[k].name == name
  }

  /** The rows of the top-selling table for the entries `top`. */
  function SalesRows(top: seq<Bucket>, txs: seq<Transaction>, offers: seq<Offer>, crops: seq<Crop>): (rows: seq<CropSales>)
    ensures |rows| == |top|
    ensures forall k :: 0 <= k < |rows| ==> rows[k].name == top[k].name && rows[k].revenue == top[k].revenue
    ensures forall k :: 0 <= k < |rows| ==> rows[k].quantity == top[k].count
  {
    seq(|top|, k requires 0 <= k < |top| =>
          CropSales(top[k].name, top[k].revenue, top[k].count, FirstUnit(txs, offers, crops, top[k].name)))
  }

  /** `processTopSellingCrops`: at most five rows, by non-increasing revenue,
      each with the revenue and number of the completed sales of its crop
      name; a crop name that sold but has no row earns no more than any row,
      and is only missing when all five rows are taken. */
  method TopSellingCrops(txs: seq<Transaction>, offers: seq<Offer>, crops: seq<Crop>) returns (rows: seq<CropSales>)
    ensures |rows| <= 5
    ensures SortedDesc(rows, CropRevenue)
    ensures forall k :: 0 <= k < |rows| ==>
              && rows[k].revenue == GroupRevenue(txs, CropKey(offers, crops), rows[k].name)
              && rows[k].quantity == GroupCount(txs, CropKey(offers, crops), rows[k].name) > 0
              && rows[k].unit == FirstUnit(txs, offers, crops, rows[k].name)
    ensures forall k :: 0 <= k < |rows| ==> rows[k].name !in InheritedNames
    ensures forall name :: GroupCount(txs, CropKey(offers, crops), name) > 0 && !HasRow(rows, name) ==>
              |rows| == 5 && forall k :: 0 <= k < 5 ==> rows[k].revenue >= GroupRevenue(txs, CropKey(offers, crops), name)
  {
    var groups := GroupCompleted(txs, CropKey(offers, crops));
    rows := SalesRows(Take(SortDesc(groups, Revenue), 5), txs, offers, crops);
    TopSalesRows(txs, offers, crops, groups);
    forall k | 0 <= k < |rows|
      ensures rows[k].name !in InheritedNames
    {
      if rows[k].name in InheritedNames {
        InheritedNamesDropped(txs, CropKey(offers, crops), rows[k].name);
      }
    }
  }

  /** The table built from a tallied dictionary says what the method
      promises. */
  lemma {:induction false} TopSalesRows(txs: seq<Transaction>, offers: seq<Offer>, crops: seq<Crop>, groups: seq<Bucket>)
    requires EntriesRight(txs, CropKey(offers, crops), groups) && Covers(txs, CropKey(offers, crops), groups)
    ensures var rows := SalesRows(Take(SortDesc(groups, Revenue), 5), txs, offers, crops);
            && |rows| <= 5
            && SortedDesc(rows, CropRevenue)
            && (forall k :: 0 <= k < |rows| ==>
                  && rows[k].revenue == GroupRevenue(txs, CropKey(offers, crops), rows[k].name)
                  && rows[k].quantity == GroupCount(txs, CropKey(offers, crops), rows[k].name) > 0
                  && rows[k].unit == FirstUnit(txs, offers, crops, rows[k].name))
            && (forall name :: GroupCount(txs, CropKey(offers, crops), name) > 0 && !HasRow(rows, name) ==>
                  |rows| == 5 && forall k :: 0 <= k < 5 ==> rows[k].revenue >= GroupRevenue(txs, CropKey(offers, crops), name))
  {
    var key := CropKey(offers, crops);
    var top := Take(SortDesc(groups, Revenue), 5);
    var rows := SalesRows(top, txs, offers, crops);
    TopBuckets(txs, key, groups, 5);
    forall i, j | 0 <= i < j < |rows|
      ensures CropRevenue(rows[i]) >= CropRevenue(rows[j])
    {
      assert Revenue(top[i]) >= Revenue(top[j]);
    }
    forall k | 0 <= k < |rows|
      ensures rows[k].revenue == GroupRevenue(txs, key, rows[k].name)
      ensures rows[k].quantity == GroupCount(txs, key, rows[k].name) > 0
    {
      assert EntryRight(txs, key, top[k]);
    }
    forall name | GroupCount(txs, key, name) > 0 && !HasRow(rows, name)
      ensures |rows| == 5 && forall k :: 0 <= k < 5 ==> rows[k].revenue >= GroupRevenue(txs, key, name)
    {
      assert NameUsed(txs, key, name);
      assert !HasBucket(top, name);
    }
  }

  /** The first `n` entries by revenue are right, and a name with sales that
      is not among them earns no more than any of them, which fill all `n`
      places. */
  lemma {:induction false} TopBuckets(txs: seq<Transaction>, key: Transaction -> Option<string>, groups: seq<Bucket>, n: nat)
    requires EntriesRight(txs, key, groups) && Covers(txs, key, groups)
    ensures var top := Take(SortDesc(groups, Revenue), n);
            && SortedDesc(top, Revenue)
            && EntriesRight(txs, key, top)
            && forall name :: NameUsed(txs, key, name) && !HasBucket(top, name) ==>
                 |top| == n && forall k :: 0 <= k < n ==> top[k].revenue >= GroupRevenue(txs, key, name)
  {
    var top := Take(SortDesc(groups, Revenue), n);
    TopOfSorted(groups, Revenue, n);
    forall k | 0 <= k < |top|
      ensures EntryRight(txs, key, top[k])
    {
      assert top[k] in groups;
    }
    forall name | NameUsed(txs, key, name) && !HasBucket(top, name)
      ensures |top| == n && forall k :: 0 <= k < n ==> top[k].revenue >= GroupRevenue(txs, key, name)
    {
      var g :| 0 <= g < |groups| && groups[g].name == name;
      assert EntryRight(txs, key, groups[g]);
      assert groups[g] !in top;
    }
  }

  /** The offer of a sale among the farmer's offers (the first with its id). */
  function SaleOffer(t: Transaction, offers: seq<Offer>): Option<Offer> {
    Find(offers, (o: Offer) => o.id == t.offerId)
  }

  /** The name the retailer lookup records for an id: the profile's name, or
      the id itself when the name is empty, there is no profile, or reading
      it failed (`readFails`). Never empty. */
  function NameOrId(users: map<Id, User>, readFails: set<Id>, id: Id): (n: string)
    ensures n != ""
    ensures id !in readFails && id in users && users[id].name != "" ==> n == users[id].name
    ensures id in readFails || id !in users || users[id].name == "" ==> n == Decimal(id)
  {
    if id !in readFails && id in users && users[id].name != "" then users[id].name else Decimal(id)
  }

  /** `fetchRetailerNames`: an entry for each retailer id of the farmer's
      offers, the empty id skipped, holding the name or the id. Until it
      completes the names are the empty map. */
  function RetailerNames(offers: seq<Offer>, users: map<Id, User>, readFails: set<Id>): (names: map<Id, string>)
    ensures forall id :: id in names <==> id != NoId && exists k :: 0 <= k < |offers| && offers[k].retailerId == id
    ensures forall id :: id in names ==> names[id] == NameOrId(users, readFails, id)
  {
    var ids := set k | 0 <= k < |offers| :: offers[k].retailerId;
    map id | id in ids && id != NoId :: NameOrId(users, readFails, id)
  }

  /** The pie chart's name for a sale: the retailer's name when it is known
      and not empty, otherwise "Unknown Retailer"; sales whose offer is not
      among the farmer's offers are dropped. */
  function RetailerKey(offers: seq<Offer>, names: map<Id, string>): Transaction -> Option<string> {
    (t: Transaction) =>
      match SaleOffer(t, offers)
      case None => None
      case Some(o) => Some(if o.retailerId in names && names[o.retailerId] != "" then names[o.retailerId]
                           else "Unknown Retailer")
  }

  /** Once the names are looked up, a sale with a known offer is filed under
      its retailer's name or id, and under "Unknown Retailer" only when the
      offer carries no retailer id. */
  lemma {:induction false} LookedUpRetailerKey(t: Transaction, offers: seq<Offer>, users: map<Id, User>, readFails: set<Id>)
    ensures SaleOffer(t, offers).None? ==> RetailerKey(offers, RetailerNames(offers, users, readFails))(t).None?
    ensures SaleOffer(t, offers).Some? ==>
      var id := SaleOffer(t, offers).value.retailerId;
      RetailerKey(offers, RetailerNames(offers, users, readFails))(t)
        == Some(if id == NoId then "Unknown Retailer" else NameOrId(users, readFails, id))
  {
    if SaleOffer(t, offers).Some? {
      var o := SaleOffer(t, offers).value;
      var k :| 0 <= k < |offers| && offers[k] == o;
    }
  }

  /** `processRetailerBreakdown`: one row per retailer name with sales, by
      non-increasing revenue; the rows share out exactly the revenue and the
      number of the completed sales with a known offer. */
  method RetailerBreakdown(txs: seq<Transaction>, offers: seq<Offer>, names: map<Id, string>) returns (rows: seq<Bucket>)
    ensures SortedDesc(rows, Revenue)
    ensures forall k :: 0 <= k < |rows| ==>
              && rows[k].revenue == GroupRevenue(txs, RetailerKey(offers, names), rows[k].name)
              && rows[k].count == GroupCount(txs, RetailerKey(offers, names), rows[k].name) > 0
    ensures forall k :: 0 <= k < |rows| ==> rows[k].name !in InheritedNames
    ensures forall name :: GroupCount(txs, RetailerKey(offers, names), name) > 0 ==> HasBucket(rows, name)
    ensures Sum(rows, Revenue) == Sum(Filter(txs, Filed(RetailerKey(offers, names))), Amount)
    ensures Sum(rows, Sales) == Count(txs, Filed(RetailerKey(offers, names)))
  {
    var key := RetailerKey(offers, names);
    var groups := GroupCompleted(txs, key);
    rows := SortDesc(groups, Revenue);
    SortedBuckets(txs, key, groups);
    forall k | 0 <= k < |rows|
      ensures rows[k].revenue == GroupRevenue(txs, key, rows[k].name)
      ensures rows[k].count == GroupCount(txs, key, rows[k].name) > 0
      ensures rows[k].name !in InheritedNames
    {
      assert EntryRight(txs, key, rows[k]);
      if rows[k].name in InheritedNames {
        InheritedNamesDropped(txs, key, rows[k].name);
      }
    }
    forall name | GroupCount(txs, key, name) > 0
      ensures HasBucket(rows, name)
    {
      assert NameUsed(txs, key, name);
    }
  }

  /** Sorting the entries by revenue keeps them right, complete and adding up. */
  lemma {:induction false} SortedBuckets(txs: seq<Transaction>, key: Transaction -> Option<string>, groups: seq<Bucket>)
    requires Tallied(txs, key, groups)
    ensures var rows := SortDesc(groups, Revenue);
            EntriesRight(txs, key, rows) && Covers(txs, key, rows) && TotalsRight(txs, key, rows)
  {
    var rows := SortDesc(groups, Revenue);
    SortDescSum(groups, Revenue, Revenue);
    SortDescSum(groups, Revenue, Sales);
    SortedEntries(txs, key, groups, rows);
    SortedCovers(txs, key, groups, rows);
  }

  lemma {:induction false} SortedEntries(txs: seq<Transaction>, key: Transaction -> Option<string>, groups: seq<Bucket>,
                                         rows: seq<Bucket>)
    requires EntriesRight(txs, key, groups) && multiset(rows) == multiset(groups)
    ensures EntriesRight(txs, key, rows)
  {
    forall k | 0 <= k < |rows|
      ensures EntryRight(txs, key, rows[k])
    {
      assert rows[k] in multiset(groups);
    }
  }

  lemma {:induction false} SortedCovers(txs: seq<Transaction>, key: Transaction -> Option<string>, groups: seq<Bucket>,
                                        rows: seq<Bucket>)
    requires Covers(txs, key, groups) && multiset(rows) == multiset(groups)
    ensures Covers(txs, key, rows)
  {
    forall name | NameUsed(txs, key, name)
      ensures HasBucket(rows, name)
    {
      var g :| 0 <= g < |groups| && groups[g].name == name;
      assert groups[g] in multiset(rows);
      var j :| 0 <= j < |rows| && rows[j] == groups[g];
    }
  }
}
