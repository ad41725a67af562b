/**
 * The tracking timeline: the icon and colour for a status (looked up case-insensitively), and
 * the list of entries it renders for a shipment's events.
 */
module TrackingTimeline {
  import opened Wrappers
  import opened Text
  import opened Records

  datatype Icon = CheckCircle | Truck | PackageIcon | Clock

  /** `getStatusIcon`: a switch on the lower-cased status; Clock exactly for an unknown one. */
  function StatusIcon(status: string): (icon: Icon)
    ensures icon == Clock <==> ToLower(status) !in KnownStatuses
  {
    var s := ToLower(status);
    if s == "package collected" || s == "delivered" then CheckCircle
    else if s == "in transit" || s == "out for delivery" then Truck
    else if s == "arrived at hub" then PackageIcon
    else Clock
  }

  /** `getStatusColor`: a switch on the lower-cased status; gray-400 exactly for an unknown one. */
  function StatusColor(status: string): (color: string)
    ensures color == "bg-gray-400" <==> ToLower(status) !in KnownStatuses
  {
    var s := ToLower(status);
    if s == "delivered" then "bg-green-500"
    else if s == "out for delivery" then "bg-blue-500"
    else if s == "in transit" || s == "arrived at hub" then "bg-yellow-500"
    else if s == "package collected" then "bg-gray-500"
    else "bg-gray-400"
  }

  /** The five statuses both lookups recognise. */
  const KnownStatuses: set<string> :=
    {"package collected", "in transit", "arrived at hub", "out for delivery", "delivered"}

  /** A status and its lower-case form get the same icon and the same colour. */
  lemma LookupsIgnoreCase(status: string)
    ensures StatusIcon(ToLower(status)) == StatusIcon(status)
    ensures StatusColor(ToLower(status)) == StatusColor(status)
  {
    ToLowerIdempotent(status);
  }

  /** The colour table itself, one clause per row, for every letter case of a listed status. */
  lemma ColorTable(status: string)
    ensures ToLower(status) == "delivered" ==> StatusColor(status) == "bg-green-500"
    ensures ToLower(status) == "out for delivery" ==> StatusColor(status) == "bg-blue-500"
    ensures ToLower(status) in {"in transit", "arrived at hub"} ==> StatusColor(status) == "bg-yellow-500"
    ensures ToLower(status) == "package collected" ==> StatusColor(status) == "bg-gray-500"
  {
  }

  /** The icon table itself, one clause per row, for every letter case of a listed status. */
  lemma IconTable(status: string)
    ensures ToLower(status) in {"package collected", "delivered"} ==> StatusIcon(status) == CheckCircle
    ensures ToLower(status) in {"in transit", "out for delivery"} ==> StatusIcon(status) == Truck
    ensures ToLower(status) == "arrived at hub" ==> StatusIcon(status) == PackageIcon
  {
  }

  lemma CollectedLowered()
    ensures ToLower("Package Collected") == "package collected"
  {
    assert ToLower("Package Collected")[0] == 'p' && ToLower("Package Collected")[8] == 'c';
  }

  lemma InTransitLowered()
    ensures ToLower("In Transit") == "in transit"
  {
    assert ToLower("In Transit")[0] == 'i' && ToLower("In Transit")[3] == 't';
  }

  lemma ArrivedLowered()
    ensures ToLower("Arrived at Hub") == "arrived at hub"
  {
    assert ToLower("Arrived at Hub")[0] == 'a' && ToLower("Arrived at Hub")[11] == 'h';
  }

  lemma OutForDeliveryLowered()
    ensures ToLower("Out for Delivery") == "out for delivery"
  {
    assert ToLower("Out for Delivery")[0] == 'o' && ToLower("Out for Delivery")[8] == 'd';
  }

  /** Every status used by the seeded shipments and events is a known one. */
  lemma SeedStatusesKnown()
    ensures ToLower("Package Collected") in KnownStatuses
    ensures ToLower("In Transit") in KnownStatuses
    ensures ToLower("Arrived at Hub") in KnownStatuses
    ensures ToLower("Out for Delivery") in KnownStatuses
  {
    CollectedLowered();
    InTransitLowered();
    ArrivedLowered();
    OutForDeliveryLowered();
  }

  /** One dot of the timeline. */
  datatype Entry = Entry(
    eventId: string, status: string, icon: Icon, color: string, description: string,
    location: Option<string>, timestamp: Option<int>)

  datatype Timeline = Timeline(statusColor: string, entries: seq<Entry>)

  /**
   * `TrackingTimeline`: nothing without a shipment or without an event list (an empty list
   * still renders); otherwise one entry per event, in the order given.
   */
  function Render(shipment: Option<Shipment>, events: Option<seq<TrackingEvent>>): (r: Option<Timeline>)
    ensures r.None? <==> shipment.None? || events.None?
    ensures r.Some? ==> r.value.statusColor == StatusColor(shipment.value.status)
    ensures r.Some? ==> |r.value.entries| == |events.value|
    ensures r.Some? ==> forall i :: 0 <= i < |events.value| ==>
      && r.value.entries[i].eventId == events.value[i].id
      && r.value.entries[i].status == events.value[i].status
      && r.value.entries[i].icon == StatusIcon(events.value[i].status)
      && r.value.entries[i].color == StatusColor(events.value[i].status)
      && r.value.entries[i].description == events.value[i].description
      && r.value.entries[i].location == events.value[i].location
      && r.value.entries[i].timestamp == events.value[i].timestamp
  {
    if shipment.None? || events.None? then None
    else
      var es := events.value;
      Some(Timeline(StatusColor(shipment.value.status),
        seq(|es|, i requires 0 <= i < |es| =>
          Entry(es[i].id, es[i].status, StatusIcon(es[i].status), StatusColor(es[i].status),
                es[i].description, es[i].location, es[i].timestamp))))
  }
}
