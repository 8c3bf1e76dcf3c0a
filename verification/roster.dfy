/** The roster kept by `WyaViewModel` (ContentView.swift): the ordered list
    `people`, updated by coordinates arriving from nearby peers, by the
    device's own location sensor, and by the user's add and delete.

    There is no timestamp comparison anywhere: every arrival overwrites the
    entry it finds and stamps it with the local clock. `Date()` is the
    parameter `now`; `UUID()` and `randomColor()` are the parameters `id`
    and `color`. */
module Roster {
  import opened Common
  import PeerSession

  /** `UUID`, opaque. */
  datatype PersonId = PersonId(uuid: nat)

  /** `RGBColor`. */
  datatype RGBColor = RGBColor(red: real, green: real, blue: real)

  /** `Person`. */
  datatype Person = Person(
    id: PersonId,
    name: string,
    emoji: string,
    relationship: string,
    location: Coordinate,
    lastUpdated: int,
    isActive: bool,
    color: RGBColor)

  /** `Person.init`: `lastUpdated` is the construction time and `isActive`
      defaults to true (both call sites in the view model use the default). */
  function NewPerson(id: PersonId, name: string, emoji: string, relationship: string,
                     location: Coordinate, color: RGBColor, now: int): (p: Person)
    ensures p.isActive && p.lastUpdated == now
  {
    Person(id, name, emoji, relationship, location, now, true, color)
  }

  const PeerEmoji: string := "\U{1F464}"       // "bust in silhouette"
  const SelfEmoji: string := "\U{1F9CD}"       // "standing person"
  const FriendRelationship: string := "Friend"
  const SelfRelationship: string := "Me"
  const SelfName: string := "Me"
  const SelfColor: RGBColor := RGBColor(0.2, 0.7, 0.4)

  /** The two lookups the view model performs with `firstIndex(where:)`. */
  datatype Key = NameIs(name: string) | RelationshipIs(relationship: string)

  predicate Matches(p: Person, key: Key) {
    match key
    case NameIs(n) => p.name == n
    case RelationshipIs(r) => p.relationship == r
  }

  /** `firstIndex(where:)`: the position of the first entry matching `key`. */
  function FirstMatch(people: seq<Person>, key: Key): (r: Option<nat>)
    ensures r.Some? ==> r.value < |people| && Matches(people[r.value], key)
    ensures r.Some? ==> forall j | 0 <= j < r.value :: !Matches(people[j], key)
    ensures r.None? ==> forall j | 0 <= j < |people| :: !Matches(people[j], key)
    decreases |people|
  {
    if |people| == 0 then None
    else if Matches(people[0], key) then Some(0)
    else match FirstMatch(people[1..], key)
      case None => None
      case Some(k) => Some(k + 1)
  }

  /** The two fields an arrival overwrites. */
  function Touch(p: Person, coordinate: Coordinate, now: int): Person {
    p.(location := coordinate, lastUpdated := now)
  }

  /** The update-or-append shared by both arrival paths: the first entry
      matching `key` gets the new coordinate and time; when none matches,
      `newcomer` is appended. */
  function Upsert(people: seq<Person>, key: Key, coordinate: Coordinate, now: int, newcomer: Person): (r: seq<Person>)
    ensures FirstMatch(people, key).Some? ==>
      var k := FirstMatch(people, key).value;
      |r| == |people| && r[k] == Touch(people[k], coordinate, now) &&
      forall j | 0 <= j < |people| && j != k :: r[j] == people[j]
    ensures FirstMatch(people, key).None? ==> r == people + [newcomer]
  {
    match FirstMatch(people, key)
    case Some(k) => people[k := Touch(people[k], coordinate, now)]
    case None => people + [newcomer]
  }

  /** `FirstMatch` only looks at the key fields, so changing other fields
      of entries does not move it. */
  lemma {:induction false} FirstMatchIgnoresTouch(people: seq<Person>, key: Key, k: nat, coordinate: Coordinate, now: int)
    requires k < |people|
    ensures FirstMatch(people[k := Touch(people[k], coordinate, now)], key) == FirstMatch(people, key)
    decreases |people|
  {
    var updated := people[k := Touch(people[k], coordinate, now)];
    if |people| > 0 && !Matches(people[0], key) {
      assert Matches(updated[0], key) == Matches(people[0], key);
      if k == 0 {
        assert updated[1..] == people[1..];
      } else {
        assert updated[1..] == people[1..][k - 1 := Touch(people[k], coordinate, now)];
        FirstMatchIgnoresTouch(people[1..], key, k - 1, coordinate, now);
      }
    }
  }

  lemma {:induction false} FirstMatchAppend(people: seq<Person>, key: Key, newcomer: Person)
    requires FirstMatch(people, key).None? && Matches(newcomer, key)
    ensures FirstMatch(people + [newcomer], key) == Some(|people|)
    decreases |people|
  {
    var extended := people + [newcomer];
    if |people| > 0 {
      assert extended[1..] == people[1..] + [newcomer];
      FirstMatchAppend(people[1..], key, newcomer);
    }
  }

  /** After an upsert, the first entry matching the key carries the new
      coordinate and time. */
  lemma UpsertFindsEntry(people: seq<Person>, key: Key, coordinate: Coordinate, now: int, newcomer: Person)
    requires Matches(newcomer, key) && newcomer.location == coordinate && newcomer.lastUpdated == now
    ensures var r := Upsert(people, key, coordinate, now, newcomer);
      FirstMatch(r, key).Some? &&
      r[FirstMatch(r, key).value].location == coordinate &&
      r[FirstMatch(r, key).value].lastUpdated == now
  {
    match FirstMatch(people, key)
    case Some(k) => FirstMatchIgnoresTouch(people, key, k, coordinate, now);
    case None => FirstMatchAppend(people, key, newcomer);
  }

  /** Applying the same arrival twice is the same as applying it once. */
  lemma UpsertIdempotent(people: seq<Person>, key: Key, coordinate: Coordinate, now: int, newcomer: Person)
    requires Matches(newcomer, key) && newcomer.location == coordinate && newcomer.lastUpdated == now
    ensures var once := Upsert(people, key, coordinate, now, newcomer);
      Upsert(once, key, coordinate, now, newcomer) == once
  {
    var once := Upsert(people, key, coordinate, now, newcomer);
    match FirstMatch(people, key)
    case Some(k) =>
      FirstMatchIgnoresTouch(people, key, k, coordinate, now);
      assert once[k := Touch(once[k], coordinate, now)] == once;
    case None =>
      FirstMatchAppend(people, key, newcomer);
      assert once[|people| := Touch(once[|people|], coordinate, now)] == once;
  }

  /** `updatePerson(named:with:)`, the `receivedLocation` handler: the first
      entry with that name gets the coordinate and the local time; an
      unknown name gets a new "Friend" entry at the end. */
  function UpdatePerson(people: seq<Person>, name: string, coordinate: Coordinate,
                        now: int, id: PersonId, color: RGBColor): (r: seq<Person>)
    ensures |people| <= |r| <= |people| + 1
    ensures (exists j | 0 <= j < |people| :: people[j].name == name) ==>
      var k := FirstMatch(people, NameIs(name)).value;
      |r| == |people| && r[k] == people[k].(location := coordinate, lastUpdated := now) &&
      forall j | 0 <= j < |people| && j != k :: r[j] == people[j]
    ensures (forall j | 0 <= j < |people| :: people[j].name != name) ==>
      r[..|people|] == people && |r| == |people| + 1 &&
      r[|people|] == Person(id, name, PeerEmoji, FriendRelationship, coordinate, now, true, color)
    ensures FirstMatch(r, NameIs(name)).Some? &&
      r[FirstMatch(r, NameIs(name)).value].location == coordinate &&
      r[FirstMatch(r, NameIs(name)).value].lastUpdated == now
  {
    var newcomer := NewPerson(id, name, PeerEmoji, FriendRelationship, coordinate, color, now);
    UpsertFindsEntry(people, NameIs(name), coordinate, now, newcomer);
    var r := Upsert(people, NameIs(name), coordinate, now, newcomer);
    assert FirstMatch(people, NameIs(name)).None? ==> r[..|people|] == people;
    r
  }

  /** No timestamp is compared: an arrival stamped earlier than what is
      stored still overwrites it, so an entry's time can go backwards. */
  lemma ArrivalAlwaysOverwrites(people: seq<Person>, name: string, coordinate: Coordinate,
                                now: int, id: PersonId, color: RGBColor)
    requires FirstMatch(people, NameIs(name)).Some?
    requires now < people[FirstMatch(people, NameIs(name)).value].lastUpdated
    ensures var k := FirstMatch(people, NameIs(name)).value;
      UpdatePerson(people, name, coordinate, now, id, color)[k].lastUpdated == now < people[k].lastUpdated
  {
  }

  /** Two arrivals for the same name: the later call wins, whatever times
      they carry. */
  lemma LaterArrivalWins(people: seq<Person>, name: string, c1: Coordinate, t1: int, c2: Coordinate, t2: int,
                         id: PersonId, color: RGBColor)
    ensures var r := UpdatePerson(UpdatePerson(people, name, c1, t1, id, color), name, c2, t2, id, color);
      r[FirstMatch(r, NameIs(name)).value].location == c2 &&
      r[FirstMatch(r, NameIs(name)).value].lastUpdated == t2
  {
  }

  /** `WyaViewModel`'s roster state: the list and the map centre. */
  datatype ViewModel = ViewModel(people: seq<Person>, mapCenter: Coordinate)

  /** The result of a sensor callback: the new state and the coordinate
      handed to `multipeerSession.send(location:)`, if any. */
  datatype SensorStep = SensorStep(model: ViewModel, broadcast: Option<Coordinate>)

  /** `locationManager(_:didUpdateLocations:)`. An empty batch changes
      nothing. Otherwise only the last sample counts: the first entry whose
      relationship is "Me" gets it (or a new "Me" entry is appended), the
      map centres on it, and it is broadcast to nearby peers. */
  function DidUpdateLocations(vm: ViewModel, locations: seq<Coordinate>, now: int, id: PersonId): (r: SensorStep)
    ensures |locations| == 0 ==> r == SensorStep(vm, None)
    ensures |locations| > 0 ==>
      var last := locations[|locations| - 1];
      r.broadcast == Some(last) && r.model.mapCenter == last &&
      |vm.people| <= |r.model.people| <= |vm.people| + 1 &&
      (forall j | 0 <= j < |vm.people| && !Matches(vm.people[j], RelationshipIs(SelfRelationship)) ::
         r.model.people[j] == vm.people[j]) &&
      var k := FirstMatch(r.model.people, RelationshipIs(SelfRelationship));
      k.Some? && r.model.people[k.value].location == last && r.model.people[k.value].lastUpdated == now
    ensures |locations| > 0 && FirstMatch(vm.people, RelationshipIs(SelfRelationship)).Some? ==>
      var last := locations[|locations| - 1];
      var k := FirstMatch(vm.people, RelationshipIs(SelfRelationship)).value;
      |r.model.people| == |vm.people| &&
      r.model.people[k] == vm.people[k].(location := last, lastUpdated := now) &&
      forall j | 0 <= j < |vm.people| && j != k :: r.model.people[j] == vm.people[j]
    ensures |locations| > 0 && FirstMatch(vm.people, RelationshipIs(SelfRelationship)).None? ==>
      r.model.people == vm.people +
        [Person(id, SelfName, SelfEmoji, SelfRelationship, locations[|locations| - 1], now, true, SelfColor)]
  {
    if |locations| == 0 then SensorStep(vm, None)
    else
      var coordinate := locations[|locations| - 1];
      var me := NewPerson(id, SelfName, SelfEmoji, SelfRelationship, coordinate, SelfColor, now);
      UpsertFindsEntry(vm.people, RelationshipIs(SelfRelationship), coordinate, now, me);
      var people := Upsert(vm.people, RelationshipIs(SelfRelationship), coordinate, now, me);
      SensorStep(ViewModel(people, coordinate), Some(coordinate))
  }

  /** Earlier samples in a batch are ignored. */
  lemma OnlyLastSampleCounts(vm: ViewModel, earlier: seq<Coordinate>, last: Coordinate, now: int, id: PersonId)
    ensures DidUpdateLocations(vm, earlier + [last], now, id) == DidUpdateLocations(vm, [last], now, id)
  {
  }

  /** With no "Me" entry yet, the sensor appends one named "Me". */
  lemma FirstSampleAddsSelf(vm: ViewModel, c: Coordinate, now: int, id: PersonId)
    requires forall j | 0 <= j < |vm.people| :: vm.people[j].relationship != SelfRelationship
    ensures DidUpdateLocations(vm, [c], now, id).model.people ==
      vm.people + [Person(id, SelfName, SelfEmoji, SelfRelationship, c, now, true, SelfColor)]
  {
  }

  /** `addPerson`: the entry goes at the end. */
  function AddPerson(people: seq<Person>, p: Person): (r: seq<Person>)
    ensures |r| == |people| + 1 && r[|people|] == p
    ensures forall j | 0 <= j < |people| :: r[j] == people[j]
  {
    people + [p]
  }

  /** `people.removeAll { $0.id == id }`. */
  function RemoveId(people: seq<Person>, id: PersonId): (r: seq<Person>)
    ensures |r| <= |people|
    ensures forall j | 0 <= j < |r| :: r[j].id != id
    decreases |people|
  {
    if |people| == 0 then []
    else (if people[0].id == id then [] else [people[0]]) + RemoveId(people[1..], id)
  }

  /** Removal drops every copy of an entry with the id and keeps every
      copy of every other entry. */
  lemma {:induction false} RemoveIdCounts(people: seq<Person>, id: PersonId, p: Person)
    ensures multiset(RemoveId(people, id))[p] == if p.id == id then 0 else multiset(people)[p]
    decreases |people|
  {
    if |people| > 0 {
      assert people == [people[0]] + people[1..];
      RemoveIdCounts(people[1..], id, p);
    }
  }

  /** `deletePerson`: removes every entry with the person's id. */
  function DeletePerson(people: seq<Person>, person: Person): (r: seq<Person>)
    ensures forall j | 0 <= j < |r| :: r[j].id != person.id
    ensures forall p: Person | p.id != person.id :: multiset(r)[p] == multiset(people)[p]
  {
    forall p: Person | p.id != person.id
      ensures multiset(RemoveId(people, person.id))[p] == multiset(people)[p]
    {
      RemoveIdCounts(people, person.id, p);
    }
    RemoveId(people, person.id)
  }

  /** Removal keeps the survivors in order: it distributes over
      concatenation. */
  lemma {:induction false} RemoveIdDistributes(a: seq<Person>, b: seq<Person>, id: PersonId)
    ensures RemoveId(a + b, id) == RemoveId(a, id) + RemoveId(b, id)
    decreases |a|
  {
    if |a| == 0 {
      assert a + b == b;
    } else {
      assert (a + b)[1..] == a[1..] + b;
      RemoveIdDistributes(a[1..], b, id);
    }
  }

  /** A roster with no entry carrying the id is left as it is. */
  lemma {:induction false} RemoveAbsentId(people: seq<Person>, id: PersonId)
    requires forall j | 0 <= j < |people| :: people[j].id != id
    ensures RemoveId(people, id) == people
    decreases |people|
  {
    if |people| > 0 {
      RemoveAbsentId(people[1..], id);
    }
  }

  /** Deleting a person just added removes it again, along with any
      earlier entry sharing its id. */
  lemma DeleteUndoesAdd(people: seq<Person>, p: Person)
    ensures DeletePerson(AddPerson(people, p), p) == DeletePerson(people, p)
  {
    RemoveIdDistributes(people, [p], p.id);
    assert RemoveId([p], p.id) == [];
  }

  /** Deleting twice is deleting once. */
  lemma DeleteIdempotent(people: seq<Person>, p: Person)
    ensures DeletePerson(DeletePerson(people, p), p) == DeletePerson(people, p)
  {
    RemoveAbsentId(RemoveId(people, p.id), p.id);
  }

  /** The `receivedLocation` closure: a delivery from the peer session
      becomes an `updatePerson` under the peer's display name. */
  function ReceiveDelivery(vm: ViewModel, delivery: Option<PeerSession.Delivery>,
                           now: int, id: PersonId, color: RGBColor): (r: ViewModel)
    ensures delivery.None? ==> r == vm
    ensures delivery.Some? ==> r.mapCenter == vm.mapCenter
    ensures delivery.Some? ==>
      var k := FirstMatch(r.people, NameIs(delivery.value.from.displayName));
      k.Some? && r.people[k.value].location == delivery.value.coordinate
    ensures delivery.Some? ==>
      r.people == UpdatePerson(vm.people, delivery.value.from.displayName, delivery.value.coordinate, now, id, color)
  {
    match delivery
    case None => vm
    case Some(d) => vm.(people := UpdatePerson(vm.people, d.from.displayName, d.coordinate, now, id, color))
  }

  /** A malformed payload leaves the roster untouched. */
  lemma MalformedPayloadLeavesRoster(vm: ViewModel, s: PeerSession.Session, data: Option<Value>,
                                     from: PeerSession.PeerId, now: int, id: PersonId, color: RGBColor)
    requires PeerSession.DecodeLocation(data).None?
    ensures ReceiveDelivery(vm, PeerSession.Handle(s, PeerSession.DataReceived(data, from)).delivery, now, id, color) == vm
  {
  }

  /** Device A's sensor sample travels to device B: A broadcasts it, B
      decodes it, and B's roster then holds A's coordinate under A's
      display name. */
  lemma SampleReachesPeerRoster(a: ViewModel, b: ViewModel, aId: PeerSession.PeerId,
                                peers: seq<PeerSession.PeerId>, samples: seq<Coordinate>,
                                bSession: PeerSession.Session, now: int, id: PersonId, color: RGBColor)
    requires |samples| > 0 && |peers| > 0
    ensures var sent := DidUpdateLocations(a, samples, now, id).broadcast;
      var tx := PeerSession.Send(peers, sent.value, true);
      var reaction := PeerSession.Handle(bSession, PeerSession.DataReceived(Some(tx.value.payload), aId));
      var b' := ReceiveDelivery(b, reaction.delivery, now, id, color);
      var k := FirstMatch(b'.people, NameIs(aId.displayName));
      k.Some? && b'.people[k.value].location == samples[|samples| - 1]
  {
  }

  /** A nearby device whose display name is "Me" is filed under the same
      name as the device's own entry, so its arrival overwrites the
      coordinate of the self entry when that entry comes first. */
  lemma PeerNamedMeHitsSelfEntry(vm: ViewModel, c: Coordinate, peerC: Coordinate, now: int, id: PersonId, color: RGBColor)
    requires forall j | 0 <= j < |vm.people| :: vm.people[j].name != SelfName && vm.people[j].relationship != SelfRelationship
    ensures var afterSensor := DidUpdateLocations(vm, [c], now, id).model;
      var afterPeer := ReceiveDelivery(afterSensor, Some(PeerSession.Delivery(PeerSession.PeerId(SelfName), peerC)), now, id, color);
      |afterPeer.people| == |vm.people| + 1 &&
      afterPeer.people[|vm.people|].relationship == SelfRelationship &&
      afterPeer.people[|vm.people|].location == peerC
  {
  }
}
