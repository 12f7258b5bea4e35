/** The gold overview chart's data: keep the items priced above 100000,
    label them, sort them by price from high to low and keep at most six;
    render nothing when none is left. Prices are the `sell` texts already
    parsed, as integers. */
module GoldChart {
  import opened Util

  /** An item of the gold bucket with its price parsed; `None` where the
      price text does not parse (NaN, which no comparison accepts). */
  datatype GoldItem = GoldItem(title: string, symbol: string, price: Option<int>)

  /** One bar of the chart: its label and its price. */
  datatype ChartEntry = ChartEntry(name: string, fullValue: int)

  const MinPrice: int := 100000
  const MaxEntries: nat := 6

  /** The chart's own title-to-label table. */
  const EnglishNames: map<string, string> := map[
    "سکه امامی" := "Emami",
    "گرم طلا" := "Gold 1g",
    "انس طلا" := "Ounce",
    "تمام سکه" := "Azadi (1)",
    "سکه ۱ گرمی" := "Azadi 1g",
    "انس نقره" := "Silver",
    "مثقال طلا" := "Mithqal",
    "ربع سکه" := "1/4 Azadi",
    "نیم سکه" := "1/2 Azadi"
  ]

  /** The filter's test: a parsed price above 100000. */
  predicate Qualifies(item: GoldItem)
  {
    item.price.Some? && item.price.value > MinPrice
  }

  /** `ENGLISH_NAMES[item.title] || item.symbol`. */
  function Label(item: GoldItem): string
  {
    if item.title in EnglishNames && EnglishNames[item.title] != "" then EnglishNames[item.title]
    else item.symbol
  }

  /** The `map` step for a qualifying item. */
  function ToEntry(item: GoldItem): ChartEntry
    requires Qualifies(item)
  {
    ChartEntry(Label(item), item.price.value)
  }

  /** The `filter` and `map` steps, in input order. */
  function Qualifying(items: seq<GoldItem>): seq<ChartEntry>
  {
    if items == [] then []
    else (if Qualifies(items[0]) then [ToEntry(items[0])] else []) + Qualifying(items[1..])
  }

  ghost predicate SortedDesc(s: seq<ChartEntry>)
  {
    forall i, j :: 0 <= i < j < |s| ==> s[i].fullValue >= s[j].fullValue
  }

  /** An entry no cheaper than the head of a descending list can go in
      front of it. */
  lemma PrependSorted(x: ChartEntry, t: seq<ChartEntry>)
    requires SortedDesc(t)
    requires t != [] ==> t[0].fullValue <= x.fullValue
    ensures SortedDesc([x] + t)
  {
    var r := [x] + t;
    forall i, j | 0 <= i < j < |r| ensures r[i].fullValue >= r[j].fullValue {
      if i == 0 {
        assert r[j] == t[j - 1];
        assert t[0].fullValue >= t[j - 1].fullValue;
      } else {
        assert r[i] == t[i - 1] && r[j] == t[j - 1];
      }
    }
  }

  /** Puts `e` into the descending list `s` ahead of every entry that is not
      dearer, so that of two equal prices the earlier one stays first. */
  function Insert(e: ChartEntry, s: seq<ChartEntry>): (r: seq<ChartEntry>)
    requires SortedDesc(s)
    ensures SortedDesc(r)
    ensures multiset(r) == multiset(s) + multiset{e}
    ensures r[0] == if s == [] || s[0].fullValue <= e.fullValue then e else s[0]
  {
    if s == [] || s[0].fullValue <= e.fullValue then
      PrependSorted(e, s);
      [e] + s
    else
      var rest := Insert(e, s[1..]);
      assert s == [s[0]] + s[1..];
      assert |s| > 1 ==> s[0].fullValue >= s[1].fullValue;
      PrependSorted(s[0], rest);
      [s[0]] + rest
  }

  /** How many leading entries of `s` are strictly dearer than `e`: all of
      those are, and the entry right after them is not. */
  function DearerPrefix(e: ChartEntry, s: seq<ChartEntry>): (k: nat)
    ensures k <= |s|
    ensures forall i :: 0 <= i < k ==> s[i].fullValue > e.fullValue
    ensures k < |s| ==> s[k].fullValue <= e.fullValue
  {
    if s == [] || s[0].fullValue <= e.fullValue then 0
    else
      var k := DearerPrefix(e, s[1..]);
      assert forall i :: 1 <= i < k + 1 ==> s[i] == s[1..][i - 1];
      1 + k
  }

  /** Regrouping a cons in front of a three-part concatenation. */
  lemma ConsAssoc(x: ChartEntry, a: seq<ChartEntry>, e: ChartEntry, b: seq<ChartEntry>)
    ensures [x] + (a + [e] + b) == ([x] + a) + [e] + b
  {
  }

  /** The tail of a descending list is descending. */
  lemma TailSorted(s: seq<ChartEntry>)
    requires s != [] && SortedDesc(s)
    ensures SortedDesc(s[1..])
  {
    var t := s[1..];
    forall i, j | 0 <= i < j < |t| ensures t[i].fullValue >= t[j].fullValue {
      assert t[i] == s[i + 1] && t[j] == s[j + 1];
    }
  }

  /** Insertion places `e` right after the entries strictly dearer than it
      and ahead of all the others, equal prices included. */
  lemma {:induction false} InsertPlacement(e: ChartEntry, s: seq<ChartEntry>)
    requires SortedDesc(s)
    ensures Insert(e, s) == s[..DearerPrefix(e, s)] + [e] + s[DearerPrefix(e, s)..]
  {
    if s == [] || s[0].fullValue <= e.fullValue {
      assert s[..0] + [e] + s[0..] == [e] + s;
    } else {
      var t := s[1..];
      TailSorted(s);
      InsertPlacement(e, t);
      var k := DearerPrefix(e, t);
      ConsAssoc(s[0], t[..k], e, t[k..]);
      assert s[..k + 1] == [s[0]] + t[..k];
      assert s[k + 1..] == t[k..];
    }
  }

  /** The `sort((a, b) => b.value - a.value)` step: a stable sort from the
      highest price to the lowest. */
  function SortDesc(s: seq<ChartEntry>): (r: seq<ChartEntry>)
    ensures SortedDesc(r)
    ensures multiset(r) == multiset(s)
  {
    if s == [] then []
    else
      assert s == [s[0]] + s[1..];
      Insert(s[0], SortDesc(s[1..]))
  }

  /** The `slice(0, n)` step. */
  function Take(s: seq<ChartEntry>, n: nat): seq<ChartEntry>
  {
    if |s| <= n then s else s[..n]
  }

  /** `chartData`: the whole pipeline. */
  function ChartData(items: seq<GoldItem>): seq<ChartEntry>
  {
    Take(SortDesc(Qualifying(items)), MaxEntries)
  }

  /** The component: nothing when the chart would be empty. */
  function Chart(items: seq<GoldItem>): Option<seq<ChartEntry>>
  {
    var data := ChartData(items);
    if |data| == 0 then None else Some(data)
  }

  /** `Math.max` over the chart's prices. */
  function MaxValue(s: seq<ChartEntry>): int
    requires s != []
  {
    if |s| == 1 then s[0].fullValue
    else
      var m := MaxValue(s[1..]);
      if s[0].fullValue >= m then s[0].fullValue else m
  }

  /** An entry comes from the filter and map exactly when some input item
      qualifies and maps to it. */
  lemma {:induction false} QualifyingMembership(items: seq<GoldItem>, e: ChartEntry)
    ensures e in Qualifying(items) <==>
      exists k :: 0 <= k < |items| && Qualifies(items[k]) && ToEntry(items[k]) == e
  {
    if items != [] {
      QualifyingMembership(items[1..], e);
      if e in Qualifying(items[1..]) {
        var k :| 0 <= k < |items[1..]| && Qualifies(items[1..][k]) && ToEntry(items[1..][k]) == e;
        assert items[k + 1] == items[1..][k];
      }
      if exists k :: 0 <= k < |items| && Qualifies(items[k]) && ToEntry(items[k]) == e {
        var k :| 0 <= k < |items| && Qualifies(items[k]) && ToEntry(items[k]) == e;
        if k > 0 {
          assert items[1..][k - 1] == items[k];
        }
      }
    }
  }

  /** Every chart entry is the labelled form of an input item priced above
      100000. */
  lemma EntriesComeFromQualifyingItems(items: seq<GoldItem>, e: ChartEntry)
    requires e in ChartData(items)
    ensures e.fullValue > MinPrice
    ensures exists k :: 0 <= k < |items| && Qualifies(items[k]) && ToEntry(items[k]) == e
  {
    var sorted := SortDesc(Qualifying(items));
    assert e in sorted;
    assert e in multiset(Qualifying(items));
    QualifyingMembership(items, e);
  }

  /** The chart holds the six highest qualifying prices, or all of them when
      there are fewer, highest first, each drawn from the qualifying items. */
  lemma ChartIsSortedSelection(items: seq<GoldItem>)
    ensures var q := Qualifying(items);
      |ChartData(items)| == if |q| <= MaxEntries then |q| else MaxEntries
    ensures SortedDesc(ChartData(items))
    ensures multiset(ChartData(items)) <= multiset(Qualifying(items))
  {
    var q := Qualifying(items);
    var sorted := SortDesc(q);
    assert |sorted| == |q| by {
      assert |multiset(sorted)| == |multiset(q)|;
    }
    var data := ChartData(items);
    assert sorted == data + sorted[|data|..];
    assert multiset(sorted) == multiset(data) + multiset(sorted[|data|..]);
  }

  /** Of a descending rearrangement of `q`, the first `n` entries are at
      least as dear as every entry of `q` left out of them. */
  lemma PrefixKeepsHighest(q: seq<ChartEntry>, sorted: seq<ChartEntry>, n: nat)
    requires SortedDesc(sorted)
    requires multiset(sorted) == multiset(q)
    requires n <= |sorted|
    ensures forall x, i :: x in multiset(q) - multiset(sorted[..n]) && 0 <= i < n ==>
      x.fullValue <= sorted[..n][i].fullValue
  {
    assert sorted == sorted[..n] + sorted[n..];
    assert multiset(q) - multiset(sorted[..n]) == multiset(sorted[n..]);
    forall x, i | x in multiset(q) - multiset(sorted[..n]) && 0 <= i < n
      ensures x.fullValue <= sorted[..n][i].fullValue
    {
      assert x in sorted[n..];
      var j :| 0 <= j < |sorted[n..]| && sorted[n..][j] == x;
      assert sorted[n + j] == x;
    }
  }

  /** No qualifying item left out of the chart is priced above an entry
      kept in it. */
  lemma ChartKeepsHighest(items: seq<GoldItem>)
    ensures var data := ChartData(items);
      forall x, i :: x in multiset(Qualifying(items)) - multiset(data) && 0 <= i < |data| ==>
        x.fullValue <= data[i].fullValue
  {
    var q := Qualifying(items);
    var sorted := SortDesc(q);
    var n := if |sorted| <= MaxEntries then |sorted| else MaxEntries;
    assert ChartData(items) == sorted[..n];
    PrefixKeepsHighest(q, sorted, n);
  }

  /** Nothing is rendered exactly when no item is priced above 100000. */
  lemma EmptyChartIffNoneQualifies(items: seq<GoldItem>)
    ensures Chart(items) == None <==> forall k :: 0 <= k < |items| ==> !Qualifies(items[k])
  {
    var q := Qualifying(items);
    ChartIsSortedSelection(items);
    assert Chart(items) == None <==> q == [];
    if q != [] {
      QualifyingMembership(items, q[0]);
    }
    if k :| 0 <= k < |items| && Qualifies(items[k]) {
      QualifyingMembership(items, ToEntry(items[k]));
    }
  }

  /** The largest bar is the first one, so `Math.max` is the first price. */
  lemma {:induction false} MaxValueIsFirst(s: seq<ChartEntry>)
    requires s != []
    requires SortedDesc(s)
    ensures MaxValue(s) == s[0].fullValue
    ensures forall i :: 0 <= i < |s| ==> s[i].fullValue <= MaxValue(s)
  {
    if |s| > 1 {
      MaxValueIsFirst(s[1..]);
    }
  }

  /** An entry's name is the table's label for its title when there is
      one, and otherwise its symbol, never its title. */
  lemma LabelRule(item: GoldItem)
    requires Qualifies(item)
    ensures item.title in EnglishNames ==> ToEntry(item).name == EnglishNames[item.title]
    ensures item.title !in EnglishNames ==> ToEntry(item).name == item.symbol
  {
  }
}
