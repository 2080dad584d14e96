/** The values of the MVG departure sensor: departure records as the transit
    service reports them, the filter and the stable sort that a refresh applies
    to them, the product-to-icon table, and the attribute dictionary the sensor
    exposes. Everything here is a pure function of its arguments; the sensor
    objects that hold these values live in module Sensor. */
module Departures {

  datatype Option<T> = None | Some(value: T)

  /** A field of a departure record that the sensor passes through untouched
      (line label, destination, delay, platform, ...). Values that are neither
      integers, strings nor booleans (floats, lists, null) are kept as their
      JSON text. */
  datatype Field = Num(n: int) | Text(t: string) | Flag(b: bool) | Raw(json: string)

  /** One departure: its `departureTimeMinutes`, its `product` tag and every
      other field of the record. A value whose `extra` also holds one of those
      two keys stands for the same dictionary as the value without them (see
      `AsDict`); `Canonical` singles out the one representation per record. */
  datatype Departure = Departure(minutes: int, product: string, extra: map<string, Field>)

  const MinutesKey := "departureTimeMinutes"
  const ProductKey := "product"

  /** The departure as the dictionary the transit service returned. */
  function AsDict(d: Departure): (r: map<string, Field>)
    ensures r.Keys == d.extra.Keys + {MinutesKey, ProductKey}
    ensures r[MinutesKey] == Num(d.minutes) && r[ProductKey] == Text(d.product)
    ensures forall k :: k in d.extra && k != MinutesKey && k != ProductKey ==> r[k] == d.extra[k]
  {
    d.extra[MinutesKey := Num(d.minutes)][ProductKey := Text(d.product)]
  }

  /** `extra` holds only the fields other than minutes and product. */
  predicate Canonical(d: Departure)
  {
    MinutesKey !in d.extra && ProductKey !in d.extra
  }

  /** Canonical departures that give the same dictionary are the same departure. */
  lemma AsDictInjective(d: Departure, e: Departure)
    requires Canonical(d) && Canonical(e)
    requires AsDict(d) == AsDict(e)
    ensures d == e
  {
  }

  // ---------------------------------------------------------------------------
  // Filtering
  // ---------------------------------------------------------------------------

  /** A departure is shown when it leaves strictly later than the lead time and
      its product is one of the included products. */
  predicate Qualifies(d: Departure, leadTime: int, products: seq<string>)
  {
    d.minutes > leadTime && d.product in products
  }

  /** The qualifying departures of `s`, in fetch order: the list the refresh
      loop builds by appending. */
  function Desired(s: seq<Departure>, leadTime: int, products: seq<string>): (r: seq<Departure>)
    ensures |r| <= |s|
    ensures forall x :: x in r ==> x in s && Qualifies(x, leadTime, products)
  {
    if s == [] then []
    else
      var last := s[|s| - 1];
      Desired(s[..|s| - 1], leadTime, products) + (if Qualifies(last, leadTime, products) then [last] else [])
  }

  /** Filtering distributes over concatenation: it keeps the relative order of
      what it keeps. */
  lemma {:induction false} DesiredAppend(a: seq<Departure>, b: seq<Departure>, leadTime: int, products: seq<string>)
    ensures Desired(a + b, leadTime, products) == Desired(a, leadTime, products) + Desired(b, leadTime, products)
    decreases |b|
  {
    if b == [] {
      assert a + b == a;
    } else {
      var b' := b[..|b| - 1];
      DesiredAppend(a, b', leadTime, products);
      assert (a + b)[..|a + b| - 1] == a + b';
      assert (a + b)[|a + b| - 1] == b[|b| - 1];
    }
  }

  /** Every qualifying departure is kept as often as it was fetched, and
      nothing else is kept. */
  lemma {:induction false} DesiredCount(s: seq<Departure>, leadTime: int, products: seq<string>, x: Departure)
    ensures multiset(Desired(s, leadTime, products))[x] ==
            if Qualifies(x, leadTime, products) then multiset(s)[x] else 0
  {
    if s != [] {
      var init := s[..|s| - 1];
      DesiredCount(init, leadTime, products, x);
      assert s == init + [s[|s| - 1]];
    }
  }

  /** A departure is in the filtered list exactly when it was fetched and
      qualifies. */
  lemma DesiredMembers(s: seq<Departure>, leadTime: int, products: seq<string>, x: Departure)
    ensures x in Desired(s, leadTime, products) <==> x in s && Qualifies(x, leadTime, products)
  {
    DesiredCount(s, leadTime, products, x);
  }

  // ---------------------------------------------------------------------------
  // Stable sort by minutes
  // ---------------------------------------------------------------------------

  /** Non-decreasing in minutes. */
  predicate Sorted(s: seq<Departure>)
  {
    forall i, j :: 0 <= i < j < |s| ==> s[i].minutes <= s[j].minutes
  }

  /** The departures of `s` that leave in exactly `k` minutes, in the order of `s`.
      A sort by minutes is stable when it keeps each of these lists as it was. */
  function WithMinutes(s: seq<Departure>, k: int): seq<Departure>
  {
    if s == [] then []
    else (if s[0].minutes == k then [s[0]] else []) + WithMinutes(s[1..], k)
  }

  /** Puts `d` in front of the first departure that leaves no earlier than it. */
  function Insert(d: Departure, s: seq<Departure>): (r: seq<Departure>)
    ensures |r| == |s| + 1
  {
    if s == [] || d.minutes <= s[0].minutes then [d] + s
    else [s[0]] + Insert(d, s[1..])
  }

  /** Python's `sorted(desired, key=departureTimeMinutes)`, as an insertion
      sort that inserts earlier elements in front of equal later ones. */
  function SortByMinutes(s: seq<Departure>): (r: seq<Departure>)
    ensures |r| == |s|
  {
    if s == [] then [] else Insert(s[0], SortByMinutes(s[1..]))
  }

  lemma {:induction false} InsertPermutation(d: Departure, s: seq<Departure>)
    ensures multiset(Insert(d, s)) == multiset(s) + multiset{d}
  {
    if s != [] && d.minutes > s[0].minutes {
      InsertPermutation(d, s[1..]);
      assert s == [s[0]] + s[1..];
    }
  }

  lemma SortedCons(x: Departure, r: seq<Departure>)
    requires Sorted(r)
    requires forall y :: y in r ==> x.minutes <= y.minutes
    ensures Sorted([x] + r)
  {
  }

  lemma {:induction false} InsertSorted(d: Departure, s: seq<Departure>)
    requires Sorted(s)
    ensures Sorted(Insert(d, s))
  {
    if s == [] || d.minutes <= s[0].minutes {
      forall y | y in s ensures d.minutes <= y.minutes {
        var i :| 0 <= i < |s| && s[i] == y;
      }
      SortedCons(d, s);
    } else {
      var r := Insert(d, s[1..]);
      InsertSorted(d, s[1..]);
      InsertPermutation(d, s[1..]);
      forall y | y in r ensures s[0].minutes <= y.minutes {
        assert y in multiset(r);
        if y != d {
          assert y in multiset(s[1..]);
          var i :| 0 <= i < |s[1..]| && s[1..][i] == y;
          assert s[i + 1] == y;
        }
      }
      SortedCons(s[0], r);
    }
  }

  /** The sort yields a non-decreasing permutation of its input. */
  lemma {:induction false} SortSortedPermutation(s: seq<Departure>)
    ensures Sorted(SortByMinutes(s))
    ensures multiset(SortByMinutes(s)) == multiset(s)
  {
    if s != [] {
      SortSortedPermutation(s[1..]);
      InsertSorted(s[0], SortByMinutes(s[1..]));
      InsertPermutation(s[0], SortByMinutes(s[1..]));
      assert s == [s[0]] + s[1..];
    }
  }

  lemma {:induction false} WithMinutesMembers(s: seq<Departure>, k: int, x: Departure)
    ensures x in WithMinutes(s, k) <==> x in s && x.minutes == k
  {
    if s != [] {
      WithMinutesMembers(s[1..], k, x);
      assert s == [s[0]] + s[1..];
    }
  }

  lemma WithMinutesHead(x: Departure, s: seq<Departure>, k: int)
    ensures WithMinutes([x] + s, k) == (if x.minutes == k then [x] else []) + WithMinutes(s, k)
  {
  }

  /** Inserting `d` adds it in front of the departures with its own minutes and
      leaves every other group as it was. */
  lemma {:induction false} WithMinutesInsert(d: Departure, s: seq<Departure>, k: int)
    ensures WithMinutes(Insert(d, s), k) ==
            if d.minutes == k then [d] + WithMinutes(s, k) else WithMinutes(s, k)
  {
    if s == [] || d.minutes <= s[0].minutes {
      WithMinutesHead(d, s, k);
    } else {
      WithMinutesInsert(d, s[1..], k);
      WithMinutesHead(s[0], Insert(d, s[1..]), k);
      WithMinutesHead(s[0], s[1..], k);
      assert [s[0]] + s[1..] == s;
    }
  }

  /** The sort is stable: departures with equal minutes keep their order. */
  lemma {:induction false} SortStable(s: seq<Departure>, k: int)
    ensures WithMinutes(SortByMinutes(s), k) == WithMinutes(s, k)
  {
    if s != [] {
      SortStable(s[1..], k);
      WithMinutesInsert(s[0], SortByMinutes(s[1..]), k);
    }
  }

  lemma WithMinutesNonEmpty(s: seq<Departure>)
    requires s != []
    ensures WithMinutes(s, s[0].minutes) != []
  {
  }

  /** Two sorted lists that agree on every group of equal minutes are equal. */
  lemma {:induction false} SortedUnique(t: seq<Departure>, u: seq<Departure>)
    requires Sorted(t) && Sorted(u)
    requires forall k :: WithMinutes(t, k) == WithMinutes(u, k)
    ensures t == u
    decreases |t|
  {
    if t != [] {
      WithMinutesNonEmpty(t);
    }
    if u != [] {
      WithMinutesNonEmpty(u);
    }
    if t != [] {
      var a, b := t[0].minutes, u[0].minutes;
      WithMinutesMembers(t, a, t[0]);
      WithMinutesMembers(u, a, t[0]);
      var i :| 0 <= i < |u| && u[i] == t[0];
      assert b <= a;
      WithMinutesMembers(u, b, u[0]);
      WithMinutesMembers(t, b, u[0]);
      var j :| 0 <= j < |t| && t[j] == u[0];
      assert a <= b;
      assert WithMinutes(t, a) == [t[0]] + WithMinutes(t[1..], a);
      assert WithMinutes(u, a) == [u[0]] + WithMinutes(u[1..], a);
      forall k ensures WithMinutes(t[1..], k) == WithMinutes(u[1..], k) {
        var front := if a == k then [t[0]] else [];
        assert WithMinutes(t, k) == front + WithMinutes(t[1..], k);
        assert WithMinutes(u, k) == front + WithMinutes(u[1..], k);
        assert WithMinutes(t[1..], k) == WithMinutes(t, k)[|front|..];
      }
      SortedUnique(t[1..], u[1..]);
      assert t == [t[0]] + t[1..];
      assert u == [u[0]] + u[1..];
    }
  }

  /** `SortByMinutes` is a stable sort: its result is non-decreasing in
      minutes, and departures with equal minutes keep their input order. */
  lemma SortIsStableSort(s: seq<Departure>)
    ensures Sorted(SortByMinutes(s))
    ensures forall k :: WithMinutes(SortByMinutes(s), k) == WithMinutes(s, k)
  {
    SortSortedPermutation(s);
    forall k ensures WithMinutes(SortByMinutes(s), k) == WithMinutes(s, k) {
      SortStable(s, k);
    }
  }

  /** Conversely, any list that is sorted by minutes and keeps the input order
      among equal minutes is `SortByMinutes` of that input: Python's stable
      `sorted` has exactly one possible result, and this is it. */
  lemma StableSortIsSortByMinutes(s: seq<Departure>, t: seq<Departure>)
    requires Sorted(t)
    requires forall k :: WithMinutes(t, k) == WithMinutes(s, k)
    ensures t == SortByMinutes(s)
  {
    SortIsStableSort(s);
    forall k ensures WithMinutes(t, k) == WithMinutes(SortByMinutes(s), k) {
      assert WithMinutes(t, k) == WithMinutes(s, k);
    }
    SortedUnique(t, SortByMinutes(s));
  }

  // ---------------------------------------------------------------------------
  // The board a refresh computes
  // ---------------------------------------------------------------------------

  /** The departures a refresh stores: the qualifying ones, sorted by minutes. */
  function Board(fetched: seq<Departure>, leadTime: int, products: seq<string>): (r: seq<Departure>)
    ensures |r| <= |fetched|
  {
    SortByMinutes(Desired(fetched, leadTime, products))
  }

  /** The board holds every qualifying fetched departure as often as it was
      fetched, and nothing else. */
  lemma BoardCount(fetched: seq<Departure>, leadTime: int, products: seq<string>, x: Departure)
    ensures multiset(Board(fetched, leadTime, products))[x] ==
            if Qualifies(x, leadTime, products) then multiset(fetched)[x] else 0
  {
    SortSortedPermutation(Desired(fetched, leadTime, products));
    DesiredCount(fetched, leadTime, products, x);
  }

  lemma BoardMembers(fetched: seq<Departure>, leadTime: int, products: seq<string>, x: Departure)
    ensures x in Board(fetched, leadTime, products) <==> x in fetched && Qualifies(x, leadTime, products)
  {
    BoardCount(fetched, leadTime, products, x);
    assert x in Board(fetched, leadTime, products) <==> x in multiset(Board(fetched, leadTime, products));
    assert x in fetched <==> x in multiset(fetched);
  }

  /** The board is sorted by minutes, and departures with equal minutes appear
      in fetch order. */
  lemma BoardSortedStable(fetched: seq<Departure>, leadTime: int, products: seq<string>)
    ensures Sorted(Board(fetched, leadTime, products))
    ensures forall k :: WithMinutes(Board(fetched, leadTime, products), k) ==
                        WithMinutes(Desired(fetched, leadTime, products), k)
  {
    SortIsStableSort(Desired(fetched, leadTime, products));
  }

  /** The board is empty exactly when no fetched departure qualifies. */
  lemma BoardEmpty(fetched: seq<Departure>, leadTime: int, products: seq<string>)
    ensures Board(fetched, leadTime, products) == [] <==>
            forall d :: d in fetched ==> !Qualifies(d, leadTime, products)
  {
    var board := Board(fetched, leadTime, products);
    if board != [] {
      BoardMembers(fetched, leadTime, products, board[0]);
    }
    forall d | d in fetched && Qualifies(d, leadTime, products) ensures d in board {
      BoardMembers(fetched, leadTime, products, d);
    }
  }

  /** The first departure on the board qualifies and leaves no later than any
      qualifying fetched departure. */
  lemma BoardFirstIsEarliest(fetched: seq<Departure>, leadTime: int, products: seq<string>)
    requires Board(fetched, leadTime, products) != []
    ensures Board(fetched, leadTime, products)[0] in fetched
    ensures Qualifies(Board(fetched, leadTime, products)[0], leadTime, products)
    ensures forall d :: d in fetched && Qualifies(d, leadTime, products) ==>
                        Board(fetched, leadTime, products)[0].minutes <= d.minutes
  {
    var board := Board(fetched, leadTime, products);
    BoardMembers(fetched, leadTime, products, board[0]);
    BoardSortedStable(fetched, leadTime, products);
    forall d | d in fetched && Qualifies(d, leadTime, products) ensures board[0].minutes <= d.minutes {
      BoardMembers(fetched, leadTime, products, d);
      var i :| 0 <= i < |board| && board[i] == d;
    }
  }

  function Dep(minutes: int, product: string): Departure
  {
    Departure(minutes, product, map[])
  }

  const AllProducts: seq<string> := ["UBAHN", "TRAM", "BUS", "SBAHN"]

  /** A fetch with one departure that has already left, and two that leave in
      two minutes: the tram, fetched first, stays first. */
  lemma ExampleBoard()
    ensures Board([Dep(-6, "BUS"), Dep(2, "TRAM"), Dep(9, "UBAHN"), Dep(2, "BUS")], 0, AllProducts)
            == [Dep(2, "TRAM"), Dep(2, "BUS"), Dep(9, "UBAHN")]
  {
    var fetched := [Dep(-6, "BUS"), Dep(2, "TRAM"), Dep(9, "UBAHN"), Dep(2, "BUS")];
    assert fetched[..3] == [Dep(-6, "BUS"), Dep(2, "TRAM"), Dep(9, "UBAHN")];
    assert fetched[..3][..2] == [Dep(-6, "BUS"), Dep(2, "TRAM")];
    assert fetched[..3][..2][..1] == [Dep(-6, "BUS")];
    assert Desired([Dep(-6, "BUS")], 0, AllProducts) == [];
    assert Desired(fetched, 0, AllProducts) == [Dep(2, "TRAM"), Dep(9, "UBAHN"), Dep(2, "BUS")];
    assert SortByMinutes([Dep(2, "BUS")]) == [Dep(2, "BUS")];
    assert SortByMinutes([Dep(9, "UBAHN"), Dep(2, "BUS")]) == [Dep(2, "BUS"), Dep(9, "UBAHN")];
  }

  /** With a lead time of five minutes only the subway remains. */
  lemma ExampleBoardLeadTime()
    ensures Board([Dep(-6, "BUS"), Dep(2, "TRAM"), Dep(9, "UBAHN"), Dep(2, "BUS")], 5, AllProducts)
            == [Dep(9, "UBAHN")]
  {
    var fetched := [Dep(-6, "BUS"), Dep(2, "TRAM"), Dep(9, "UBAHN"), Dep(2, "BUS")];
    assert fetched[..3] == [Dep(-6, "BUS"), Dep(2, "TRAM"), Dep(9, "UBAHN")];
    assert fetched[..3][..2] == [Dep(-6, "BUS"), Dep(2, "TRAM")];
    assert fetched[..3][..2][..1] == [Dep(-6, "BUS")];
    assert Desired([Dep(-6, "BUS")], 5, AllProducts) == [];
    assert Desired(fetched, 5, AllProducts) == [Dep(9, "UBAHN")];
  }

  // ---------------------------------------------------------------------------
  // Icons and the attribute dictionary
  // ---------------------------------------------------------------------------

  /** The product-to-icon table; any other product has no icon. */
  const Icons: map<string, string> :=
    map["UBAHN" := "mdi:subway", "TRAM" := "mdi:tram", "BUS" := "mdi:bus", "SBAHN" := "mdi:train"]

  /** The icon shown when no departure qualifies. */
  const ClockIcon := "mdi:clock"

  /** Exactly the four products subway, tram, bus and suburban rail have an
      icon, and the clock is none of theirs: a board with a departure never
      shows the clock. */
  lemma IconTable()
    ensures Icons.Keys == {"UBAHN", "TRAM", "BUS", "SBAHN"}
    ensures ClockIcon !in Icons.Values
  {
  }

  /** What the sensor reports as its state: nothing before the first refresh,
      "-" when no departure qualifies, otherwise minutes until the next one. */
  datatype SensorState = Unknown | NoDeparture | Minutes(m: int)

  /** A value of the attribute dictionary. */
  datatype Attr = Scalar(f: Field) | Upcoming(departures: seq<Departure>)

  const StationKey := "station"
  const AttributionKey := "attribution"
  const UpcomingKey := "upcoming_departures"

  function Min(a: int, b: int): int { if a <= b then a else b }
  function Max(a: int, b: int): int { if a >= b then a else b }

  /** Python's slice `s[:n]` for any integer `n`: a negative `n` drops that
      many elements from the end. */
  function PrefixSlice(s: seq<Departure>, n: int): (r: seq<Departure>)
    ensures r <= s
    ensures |r| == if n >= 0 then Min(n, |s|) else Max(0, |s| + n)
  {
    if n >= |s| then s
    else if n >= 0 then s[..n]
    else if |s| + n > 0 then s[..|s| + n]
    else []
  }

  /** The attributes of a sensor whose board `ds` is not empty: the station
      and the attribution, then every field of the first departure (which may
      override those two), then the first `toShow` departures. */
  function Attributes(station: string, attribution: string, ds: seq<Departure>, toShow: int): (r: map<string, Attr>)
    requires ds != []
    ensures r.Keys == {StationKey, AttributionKey, UpcomingKey} + AsDict(ds[0]).Keys
    ensures r[UpcomingKey] == Upcoming(PrefixSlice(ds, toShow))
    ensures toShow >= 0 ==> |r[UpcomingKey].departures| == Min(toShow, |ds|)
    ensures forall k :: k in AsDict(ds[0]) && k != UpcomingKey ==> r[k] == Scalar(AsDict(ds[0])[k])
    ensures r[MinutesKey] == Scalar(Num(ds[0].minutes))
    ensures StationKey !in AsDict(ds[0]) ==> r[StationKey] == Scalar(Text(station))
    ensures AttributionKey !in AsDict(ds[0]) ==> r[AttributionKey] == Scalar(Text(attribution))
  {
    var base := map[StationKey := Scalar(Text(station)), AttributionKey := Scalar(Text(attribution))];
    var first := AsDict(ds[0]);
    var merged := base + map k | k in first :: Scalar(first[k]);
    merged[UpcomingKey := Upcoming(PrefixSlice(ds, toShow))]
  }
}
