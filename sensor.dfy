/** The MVG departure sensor as objects: the departure data holder that
    stores the last answer of the transit service, and the sensor that
    refreshes from it, filters, sorts and derives its state and icon. The
    transit service itself is not modelled; each refresh receives its answer
    as a `Fetch` value. */
module Sensor {
  import opened Departures

  /** The answer of the transit service to one departures request: the
      departures it returned, or the exception it raised. */
  datatype Fetch = Fetched(departures: seq<Departure>) | FetchRaised

  /** How a refresh ended: normally, with the fetch's exception, or with the
      lookup error raised when the first departure's product has no icon. */
  datatype Outcome = Updated | FetchFailed | UnknownProduct(product: string)

  /** Holds the departures last fetched for one station. */
  class MvgDepartureData {
    const stationId: string
    var departures: seq<Departure>

    constructor (stationId: string)
      ensures this.stationId == stationId && departures == []
    {
      this.stationId := stationId;
      departures := [];
    }

    /** Replaces the stored departures with the fetched ones; when the fetch
        raised, the stored departures stay as they were. */
    method Update(fetch: Fetch) returns (ok: bool)
      modifies this`departures
      ensures ok <==> fetch.Fetched?
      ensures departures == if ok then fetch.departures else old(departures)
    {
      match fetch
      case Fetched(ds) =>
        departures := ds;
        ok := true;
      case FetchRaised =>
        ok := false;
    }
  }

  /** The filter loop of a refresh: collects, in fetch order, the departures
      that leave strictly later than `leadTime` and whose product is in
      `products`. */
  method SelectDesired(fetched: seq<Departure>, leadTime: int, products: seq<string>)
    returns (desired: seq<Departure>)
    ensures desired == Desired(fetched, leadTime, products)
    ensures forall d :: d in desired <==> d in fetched && Qualifies(d, leadTime, products)
  {
    desired := [];
    var i := 0;
    while i < |fetched|
      invariant 0 <= i <= |fetched|
      invariant desired == Desired(fetched[..i], leadTime, products)
    {
      var departure := fetched[i];
      if departure.minutes > leadTime && departure.product in products {
        desired := desired + [departure];
      }
      assert fetched[..i + 1][..i] == fetched[..i];
      i := i + 1;
    }
    assert fetched[..i] == fetched;
    forall d ensures d in desired <==> d in fetched && Qualifies(d, leadTime, products) {
      DesiredMembers(fetched, leadTime, products, d);
    }
  }

  /** The departure sensor of one station. Its configuration is fixed at
      construction; a refresh replaces the stored departures, the state and
      the icon. */
  class MvgSensor {
    const name: string
    const station: string
    const stationId: string
    const includeProducts: seq<string>
    const leadTime: int
    const departuresToShow: int
    const attribution: string
    const data: MvgDepartureData

    var state: SensorState
    var icon: Option<string>
    var departures: Option<seq<Departure>>

    /** A sensor that has not been refreshed yet: no state, no icon, no
        departures, and a fresh data holder for its station. */
    constructor (name: string, station: string, stationId: string, includeProducts: seq<string>,
                 leadTime: int, departuresToShow: int, attribution: string)
      ensures this.name == name && this.station == station && this.stationId == stationId
      ensures this.includeProducts == includeProducts && this.leadTime == leadTime
      ensures this.departuresToShow == departuresToShow && this.attribution == attribution
      ensures state == Unknown && icon == None && departures == None
      ensures fresh(data) && data.stationId == stationId && data.departures == []
    {
      this.name := name;
      this.station := station;
      this.stationId := stationId;
      this.includeProducts := includeProducts;
      this.leadTime := leadTime;
      this.departuresToShow := departuresToShow;
      this.attribution := attribution;
      state := Unknown;
      icon := None;
      departures := None;
      data := new MvgDepartureData(stationId);
    }

    /** One refresh. When the fetch raises, nothing changes. Otherwise the
        stored departures become the board of the fetched list, and the state
        and icon come from its first departure (or are "-" and the clock when
        it is empty). A first departure whose product has no icon raises after
        the departures and the state were already replaced, so the icon keeps
        its previous value. */
    method Update(fetch: Fetch) returns (outcome: Outcome)
      modifies this`state, this`icon, this`departures, data`departures
      ensures fetch.FetchRaised? ==>
                outcome == FetchFailed && unchanged(this) && unchanged(data)
      ensures fetch.Fetched? ==>
                var board := Board(fetch.departures, leadTime, includeProducts);
                && data.departures == fetch.departures
                && departures == Some(board)
                && (board == [] ==> state == NoDeparture && icon == Some(ClockIcon) && outcome == Updated)
                && (board != [] ==> state == Minutes(board[0].minutes))
                && (board != [] && board[0].product in Icons ==>
                      icon == Some(Icons[board[0].product]) && outcome == Updated)
                && (board != [] && board[0].product !in Icons ==>
                      icon == old(icon) && outcome == UnknownProduct(board[0].product))
    {
      var ok := data.Update(fetch);
      if !ok {
        return FetchFailed;
      }
      var desired := SelectDesired(data.departures, leadTime, includeProducts);
      var sorted := SortByMinutes(desired);
      departures := Some(sorted);
      if sorted != [] {
        state := Minutes(sorted[0].minutes);
        var product := sorted[0].product;
        if product !in Icons {
          return UnknownProduct(product);
        }
        icon := Some(Icons[product]);
      } else {
        state := NoDeparture;
        icon := Some(ClockIcon);
      }
      outcome := Updated;
    }

    /** The attributes the sensor exposes: none before the first refresh or
        when no departure qualifies, otherwise those of its board. */
    function DeviceStateAttributes(): (r: Option<map<string, Attr>>)
      reads this
      ensures r.None? <==> departures == None || departures == Some([])
      ensures r.Some? ==> r.value == Attributes(station, attribution, departures.value, departuresToShow)
    {
      if departures.None? || departures.value == [] then None
      else Some(Attributes(station, attribution, departures.value, departuresToShow))
    }
  }

  /** Two refreshes that receive the same answer leave the sensor in the same
      state, whatever that state was before. */
  method RefreshTwice(sensor: MvgSensor, fetch: Fetch)
    returns (first: (Option<seq<Departure>>, SensorState, Option<string>),
             second: (Option<seq<Departure>>, SensorState, Option<string>))
    modifies sensor`state, sensor`icon, sensor`departures, sensor.data`departures
    ensures first == second
    ensures second == (sensor.departures, sensor.state, sensor.icon)
  {
    var _ := sensor.Update(fetch);
    first := (sensor.departures, sensor.state, sensor.icon);
    var _ := sensor.Update(fetch);
    second := (sensor.departures, sensor.state, sensor.icon);
  }

  /** A refresh of a new sensor with all products and lead time 0: the tram
      leaving in two minutes becomes the state, with the tram icon. */
  method ExampleRefresh() returns (sensor: MvgSensor)
    ensures sensor.state == Minutes(2) && sensor.icon == Some("mdi:tram")
    ensures sensor.departures == Some([Dep(2, "TRAM"), Dep(2, "BUS"), Dep(9, "UBAHN")])
  {
    sensor := new MvgSensor("Hauptbahnhof", "Hauptbahnhof", "de:09162:6", AllProducts, 0, 5, "MVG");
    ExampleBoard();
    var fetched := [Dep(-6, "BUS"), Dep(2, "TRAM"), Dep(9, "UBAHN"), Dep(2, "BUS")];
    var outcome := sensor.Update(Fetched(fetched));
    assert outcome == Updated;
  }

  /** A refresh that receives no departures shows "-" with the clock icon and
      exposes no attributes. */
  method ExampleEmptyRefresh() returns (sensor: MvgSensor)
    ensures sensor.state == NoDeparture && sensor.icon == Some(ClockIcon)
    ensures sensor.DeviceStateAttributes() == None
  {
    sensor := new MvgSensor("Hauptbahnhof", "Hauptbahnhof", "de:09162:6", AllProducts, 0, 5, "MVG");
    var outcome := sensor.Update(Fetched([]));
  }

  /** A first departure whose product has no icon: the refresh stops with the
      lookup error after replacing departures and state, and the icon is still
      the one from before the first refresh. */
  method ExampleUnknownProduct() returns (sensor: MvgSensor, outcome: Outcome)
    ensures outcome == UnknownProduct("FERRY")
    ensures sensor.state == Minutes(4) && sensor.icon == None
    ensures sensor.departures == Some([Dep(4, "FERRY")])
  {
    sensor := new MvgSensor("Pier", "Pier", "de:00000:1", ["FERRY"], 0, 5, "MVG");
    var fetched := [Dep(4, "FERRY")];
    assert fetched[..0] == [] && fetched[1..] == [];
    assert Board(fetched, 0, ["FERRY"]) == fetched;
    outcome := sensor.Update(Fetched(fetched));
  }
}
