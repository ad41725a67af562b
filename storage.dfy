/**
 * The in-memory store `MemStorage`: five JavaScript `Map`s that the constructor seeds and the
 * `create*` methods extend in place. Event lists are arrays: `getTrackingEvents` hands out the
 * stored array itself, so whoever sorts it reorders the store.
 */
module Storage {
  import opened Wrappers
  import opened Records

  /** The two sample shipments of the seed data. */
  const SeedShipments: seq<Shipment> := [
    Shipment("1", "ULX123456789", "Air Freight", "Out for Delivery", "New York, USA", "London, UK",
      Some(1734393600000), Some(1734220800000), Some(1734307200000)),
    Shipment("2", "ULX987654321", "Ocean Freight", "In Transit", "Shanghai, China", "Los Angeles, USA",
      Some(1735084800000), Some(1733788800000), Some(1734220800000))
  ]

  /** Seed events of shipment "1". */
  const SeedEventsOne: seq<TrackingEvent> := [
    TrackingEvent("e1", Some("1"), "Package Collected", Some("New York, USA"),
      "Your shipment has been collected from the origin", Some(1734255000000)),
    TrackingEvent("e2", Some("1"), "In Transit", Some("JFK Airport, New York"),
      "Package is on route to destination hub", Some(1734358500000)),
    TrackingEvent("e3", Some("1"), "Arrived at Hub", Some("Heathrow Airport, London"),
      "Package has arrived at destination hub", Some(1734389100000)),
    TrackingEvent("e4", Some("1"), "Out for Delivery", Some("London, UK"),
      "Package will be delivered today", Some(1734422400000))
  ]

  /** Seed events of shipment "2". */
  const SeedEventsTwo: seq<TrackingEvent> := [
    TrackingEvent("e5", Some("2"), "Package Collected", Some("Shanghai, China"),
      "Container loaded and shipped", Some(1733824800000)),
    TrackingEvent("e6", Some("2"), "In Transit", Some("Pacific Ocean"),
      "Vessel en route to destination port", Some(1734264000000))
  ]

  /** The map that `shipments.forEach(s => map.set(s.trackingNumber, s))` builds from empty. */
  function ByTrackingNumber(ss: seq<Shipment>): map<string, Shipment>
  {
    if ss == [] then map[]
    else ByTrackingNumber(ss[..|ss| - 1])[ss[|ss| - 1].trackingNumber := ss[|ss| - 1]]
  }

  /** The seed loop files the two sample shipments under their tracking numbers. */
  lemma SeedShipmentsByNumber()
    ensures ByTrackingNumber(SeedShipments) ==
      map["ULX123456789" := SeedShipments[0], "ULX987654321" := SeedShipments[1]]
  {
    assert SeedShipments[..1][..0] == [];
    assert SeedShipments[..2][..1] == SeedShipments[..1];
    assert SeedShipments[..2] == SeedShipments;
  }

  /** The `forEach` loop that files shipments under their tracking numbers, a later one winning. */
  method FileByTrackingNumber(ss: seq<Shipment>) returns (byNumber: map<string, Shipment>)
    ensures byNumber == ByTrackingNumber(ss)
  {
    byNumber := map[];
    for i := 0 to |ss|
      invariant byNumber == ByTrackingNumber(ss[..i])
    {
      byNumber := byNumber[ss[i].trackingNumber := ss[i]];
      assert ss[..i + 1][..i] == ss[..i];
    }
    assert ss[..|ss|] == ss;
  }

  /** A fresh array holding `events`. */
  method NewEventList(events: seq<TrackingEvent>) returns (a: array<TrackingEvent>)
    ensures fresh(a) && a[..] == events
  {
    a := new TrackingEvent[|events|](i requires 0 <= i < |events| => events[i]);
  }

  /** Every seed event names the shipment whose list it is filed in. */
  lemma SeedEventsFiled()
    ensures forall i :: 0 <= i < |SeedEventsOne| ==> SeedEventsOne[i].shipmentId == Some("1")
    ensures forall i :: 0 <= i < |SeedEventsTwo| ==> SeedEventsTwo[i].shipmentId == Some("2")
  {
  }

  /**
   * The first user, in insertion order, whose `field` is `value`: what
   * `Array.from(users.values()).find(u => u[field] === value)` returns.
   */
  function FirstMatch(users: map<string, UserRecord>, order: seq<string>, field: string, value: string)
    : Option<UserRecord>
  {
    if order == [] then None
    else if order[0] in users && FieldIs(users[order[0]], field, value) then Some(users[order[0]])
    else FirstMatch(users, order[1..], field, value)
  }

  /** `find` answers "none" exactly when no listed user matches, and otherwise a matching user. */
  lemma {:induction false} FirstMatchSpec(users: map<string, UserRecord>, order: seq<string>, field: string, value: string)
    requires forall id :: id in order ==> id in users
    ensures FirstMatch(users, order, field, value).None? <==>
      forall id :: id in order ==> !FieldIs(users[id], field, value)
    ensures FirstMatch(users, order, field, value).Some? ==>
      exists id :: id in order && users[id] == FirstMatch(users, order, field, value).value
        && FieldIs(users[id], field, value)
  {
    if order != [] {
      FirstMatchSpec(users, order[1..], field, value);
      forall id | id in order[1..] ensures id in order { }
      forall id | id in order ensures id == order[0] || id in order[1..] {
        var k :| 0 <= k < |order| && order[k] == id;
        if k > 0 { assert order[1..][k - 1] == id; }
      }
    }
  }

  class MemStorage {
    var users: map<string, UserRecord>
    /** The keys of `users` in insertion order, the order in which a JavaScript `Map` iterates. */
    var userOrder: seq<string>
    var contacts: map<string, Contact>
    var quotes: map<string, Quote>
    /** Keyed by tracking number. */
    var shipments: map<string, Shipment>
    /** Keyed by shipment id. */
    var trackingEvents: map<string, array<TrackingEvent>>

    /** Every shipment's id has an event list, and every event lists the shipment it is filed under. */
    ghost predicate EventsLinked()
      reads this, trackingEvents.Values
    {
      && (forall t :: t in shipments ==>
            shipments[t].trackingNumber == t && shipments[t].id in trackingEvents)
      && (forall k, i :: k in trackingEvents && 0 <= i < trackingEvents[k].Length ==>
            trackingEvents[k][i].shipmentId == Some(k))
    }

    ghost predicate Valid()
      reads this, trackingEvents.Values
    {
      && (forall i, j :: 0 <= i < j < |userOrder| ==> userOrder[i] != userOrder[j])
      && (forall id :: id in users <==> id in userOrder)
      && (forall id :: id in users ==> FieldIs(users[id], "id", id))
      && (forall id :: id in contacts ==> contacts[id].id == id)
      && (forall id :: id in quotes ==> quotes[id].id == id)
      && EventsLinked()
    }

    /** The seeded store: no users, contacts or quotes; two shipments with their events. */
    constructor ()
      ensures Valid()
      ensures users == map[] && userOrder == [] && contacts == map[] && quotes == map[]
      ensures shipments.Keys == {"ULX123456789", "ULX987654321"}
      ensures shipments["ULX123456789"] == SeedShipments[0]
      ensures shipments["ULX987654321"] == SeedShipments[1]
      ensures trackingEvents.Keys == {"1", "2"}
      ensures trackingEvents["1"][..] == SeedEventsOne && trackingEvents["2"][..] == SeedEventsTwo
      ensures fresh(trackingEvents["1"]) && fresh(trackingEvents["2"])
    {
      users, userOrder, contacts, quotes := map[], [], map[], map[];
      var byNumber := FileByTrackingNumber(SeedShipments);
      SeedShipmentsByNumber();
      shipments := byNumber;
      var one := NewEventList(SeedEventsOne);
      var two := NewEventList(SeedEventsTwo);
      var lists := map["1" := one, "2" := two];
      SeedEventsFiled();
      forall k, i | k in lists && 0 <= i < lists[k].Length
        ensures lists[k][i].shipmentId == Some(k)
      {
        if k == "1" {
          assert lists[k][i] == one[..][i];
        } else {
          assert lists[k][i] == two[..][i];
        }
      }
      trackingEvents := lists;
    }

    /** `users.get(id)`. */
    method GetUser(id: string) returns (user: Option<UserRecord>)
      requires Valid()
      ensures user.Some? <==> id in users
      ensures user.Some? ==> user.value == users[id] && FieldIs(user.value, "id", id)
    {
      user := if id in users then Some(users[id]) else None;
    }

    /** The first stored user, in insertion order, whose `field` equals `value`. */
    method FindFirst(field: string, value: string) returns (user: Option<UserRecord>)
      requires Valid()
      ensures user == FirstMatch(users, userOrder, field, value)
      ensures user.None? <==> forall id :: id in users ==> !FieldIs(users[id], field, value)
      ensures user.Some? ==> user.value in users.Values && FieldIs(user.value, field, value)
    {
      FirstMatchSpec(users, userOrder, field, value);
      user := None;
      for i := 0 to |userOrder|
        invariant FirstMatch(users, userOrder, field, value) == FirstMatch(users, userOrder[i..], field, value)
      {
        assert userOrder[i..][1..] == userOrder[i + 1..];
        var candidate := users[userOrder[i]];
        if FieldIs(candidate, field, value) {
          user := Some(candidate);
          return;
        }
      }
    }

    /** `getUserByUsername`: the first user whose `username` equals the argument. */
    method GetUserByUsername(username: string) returns (user: Option<UserRecord>)
      requires Valid()
      ensures user.None? <==> forall id :: id in users ==> !FieldIs(users[id], "username", username)
      ensures user.Some? ==> user.value in users.Values && FieldIs(user.value, "username", username)
    {
      user := FindFirst("username", username);
    }

    /** `createUser`: the input fields plus the fresh `id`, stored under that id. */
    method CreateUser(insertUser: UserRecord, id: string) returns (user: UserRecord)
      requires Valid()
      requires id !in users
      modifies this
      ensures Valid()
      ensures user == insertUser["id" := id]
      ensures users == old(users)[id := user] && userOrder == old(userOrder) + [id]
      ensures contacts == old(contacts) && quotes == old(quotes)
      ensures shipments == old(shipments) && trackingEvents == old(trackingEvents)
    {
      user := insertUser["id" := id];
      users := users[id := user];
      userOrder := userOrder + [id];
    }

    /** `createContact`: `phone` and `serviceType` become null when missing or empty. */
    method CreateContact(insertContact: InsertContact, id: string, now: int) returns (contact: Contact)
      requires Valid()
      requires id !in contacts
      modifies this
      ensures Valid()
      ensures contact.id == id && contact.createdAt == Some(now)
      ensures contact.name == insertContact.name && contact.email == insertContact.email
      ensures contact.message == insertContact.message
      ensures contact.phone == TextOrNull(insertContact.phone)
      ensures contact.serviceType == TextOrNull(insertContact.serviceType)
      ensures contacts == old(contacts)[id := contact] && |contacts| == |old(contacts)| + 1
      ensures users == old(users) && userOrder == old(userOrder) && quotes == old(quotes)
      ensures shipments == old(shipments) && trackingEvents == old(trackingEvents)
    {
      contact := Contact(id, insertContact.name, insertContact.email, TextOrNull(insertContact.phone),
        TextOrNull(insertContact.serviceType), insertContact.message, Some(now));
      contacts := contacts[id := contact];
    }

    /** `createQuote`: a falsy `phone`, `weight` (including 0), `dimensions` or `requirements` becomes null. */
    method CreateQuote(insertQuote: InsertQuote, id: string, now: int) returns (quote: Quote)
      requires Valid()
      requires id !in quotes
      modifies this
      ensures Valid()
      ensures quote.id == id && quote.createdAt == Some(now)
      ensures quote.name == insertQuote.name && quote.email == insertQuote.email
      ensures quote.serviceType == insertQuote.serviceType
      ensures quote.origin == insertQuote.origin && quote.destination == insertQuote.destination
      ensures quote.phone == TextOrNull(insertQuote.phone) && quote.weight == IntOrNull(insertQuote.weight)
      ensures quote.dimensions == TextOrNull(insertQuote.dimensions)
      ensures quote.requirements == TextOrNull(insertQuote.requirements)
      ensures quotes == old(quotes)[id := quote] && |quotes| == |old(quotes)| + 1
      ensures users == old(users) && userOrder == old(userOrder) && contacts == old(contacts)
      ensures shipments == old(shipments) && trackingEvents == old(trackingEvents)
    {
      quote := Quote(id, insertQuote.name, insertQuote.email, TextOrNull(insertQuote.phone),
        insertQuote.serviceType, insertQuote.origin, insertQuote.destination,
        IntOrNull(insertQuote.weight), TextOrNull(insertQuote.dimensions),
        TextOrNull(insertQuote.requirements), Some(now));
      quotes := quotes[id := quote];
    }

    /** `shipments.get(trackingNumber)`. */
    method GetShipmentByTrackingNumber(trackingNumber: string) returns (shipment: Option<Shipment>)
      requires Valid()
      ensures shipment.Some? <==> trackingNumber in shipments
      ensures shipment.Some? ==> shipment.value == shipments[trackingNumber]
      ensures shipment.Some? ==> shipment.value.trackingNumber == trackingNumber
      ensures shipment.Some? ==> shipment.value.id in trackingEvents
    {
      shipment := if trackingNumber in shipments then Some(shipments[trackingNumber]) else None;
    }

    /** `trackingEvents.get(id) || []`: the stored array itself, or a new empty one. */
    method GetTrackingEvents(shipmentId: string) returns (events: array<TrackingEvent>)
      ensures shipmentId in trackingEvents ==> events == trackingEvents[shipmentId]
      ensures shipmentId !in trackingEvents ==> fresh(events) && events.Length == 0
    {
      if shipmentId in trackingEvents {
        events := trackingEvents[shipmentId];
      } else {
        events := new TrackingEvent[0];
      }
    }
  }
}
