/** `MultipeerSession`: the nearby-device channel. The device advertises
    itself, accepts every invitation, sends its coordinate to all connected
    peers as a two-entry JSON object, and hands each well-formed coordinate
    it receives to the `receivedLocation` callback. The transport is the
    platform's; here a payload is the decoded JSON `Value` (or nothing, when
    the bytes are not JSON), and the framework's current peer list is a
    parameter. */
module PeerSession {
  import opened Common

  /** `MCPeerID`; its display name is the only identity the app uses. */
  datatype PeerId = PeerId(displayName: string)

  /** `MCSessionState`. */
  datatype Connection = NotConnected | Connecting | Connected

  datatype SendMode = Reliable | Unreliable

  /** One `session.send(_:toPeers:with:)` call. */
  datatype Transmission = Transmission(payload: Value, recipients: seq<PeerId>, mode: SendMode)

  /** What `receivedLocation` is called with. */
  datatype Delivery = Delivery(from: PeerId, coordinate: Coordinate)

  const LatKey: string := "lat"
  const LonKey: string := "lon"

  /** The dictionary `["lat": latitude, "lon": longitude]`. */
  function LocationPayload(c: Coordinate): (v: Value)
    ensures v.Object? && v.fields.Keys == {LatKey, LonKey}
    ensures v.fields[LatKey] == Number(c.latitude) && v.fields[LonKey] == Number(c.longitude)
  {
    Object(map[LatKey := Number(c.latitude), LonKey := Number(c.longitude)])
  }

  /** `send(location:)`. `connected` is the session's current peer list and
      `serializes` whether `JSONSerialization` produced data. With no peers,
      or no data, nothing is sent; otherwise one reliable transmission goes
      to every connected peer. A failing send is swallowed by `try?`, so the
      result is only the transmission handed to the session and no error
      ever reaches the caller. */
  function Send(connected: seq<PeerId>, location: Coordinate, serializes: bool): (r: Option<Transmission>)
    ensures r.Some? <==> |connected| > 0 && serializes
    ensures r.Some? ==> r.value.recipients == connected && r.value.mode == Reliable
    ensures r.Some? ==> r.value.payload.Object? && r.value.payload.fields.Keys == {LatKey, LonKey}
    ensures r.Some? ==> DecodeLocation(Some(r.value.payload)) == Some(location)
  {
    if |connected| == 0 then None
    else if !serializes then None
    else Some(Transmission(LocationPayload(location), connected, Reliable))
  }

  /** `as? [String: Double]`: succeeds only for an object every one of whose
      values is a number. */
  function AsNumberMap(v: Value): (r: Option<map<string, real>>)
    ensures r.Some? <==> v.Object? && forall k | k in v.fields :: v.fields[k].Number?
    ensures r.Some? ==> r.value.Keys == v.fields.Keys
    ensures r.Some? ==> forall k | k in r.value :: v.fields[k] == Number(r.value[k])
  {
    if v.Object? && forall k | k in v.fields :: v.fields[k].Number?
    then Some(map k | k in v.fields :: v.fields[k].n)
    else None
  }

  /** The decoding step of `session(_:didReceive:fromPeer:)`. `data` is
      `None` when the bytes are not JSON at all. The payload is dropped
      unless it is a string-to-number object holding both "lat" and "lon";
      a single non-numeric entry anywhere drops it, and extra numeric
      entries are ignored. */
  function DecodeLocation(data: Option<Value>): (r: Option<Coordinate>)
    ensures r.Some? <==>
      data.Some? && data.value.Object?
      && (forall k | k in data.value.fields :: data.value.fields[k].Number?)
      && LatKey in data.value.fields && LonKey in data.value.fields
    ensures r.Some? ==>
      data.value.fields[LatKey] == Number(r.value.latitude) &&
      data.value.fields[LonKey] == Number(r.value.longitude)
  {
    if data.None? then None
    else match AsNumberMap(data.value)
      case None => None
      case Some(dict) =>
        if LatKey in dict && LonKey in dict then Some(Coordinate(dict[LatKey], dict[LonKey]))
        else None
  }

  /** The state the session publishes: `connectedPeers`. */
  datatype Session = Session(connectedPeers: seq<PeerId>)

  /** The delegate callbacks the session handles. */
  datatype Event =
    | StateChanged(peer: PeerId, state: Connection, sessionPeers: seq<PeerId>)
    | DataReceived(data: Option<Value>, from: PeerId)
    | InvitationReceived(from: PeerId)

  /** The effect of one callback: the new published state, the call made
      to `receivedLocation` (if any) and the answer given to an invitation
      (if one was asked). */
  datatype Reaction = Reaction(session: Session, delivery: Option<Delivery>, invitationAccepted: Option<bool>)

  /** The delegate as a whole. A connection-state change copies the
      framework's peer list and delivers nothing; received data is decoded
      and delivered with the sender's id, changing no state; every
      invitation is accepted. */
  function Handle(s: Session, e: Event): (r: Reaction)
    ensures e.StateChanged? ==>
      r.session.connectedPeers == e.sessionPeers && r.delivery.None? && r.invitationAccepted.None?
    ensures e.DataReceived? ==>
      r.session == s && r.invitationAccepted.None? &&
      (r.delivery.Some? <==> DecodeLocation(e.data).Some?) &&
      (r.delivery.Some? ==> r.delivery.value == Delivery(e.from, DecodeLocation(e.data).value))
    ensures e.InvitationReceived? ==>
      r.session == s && r.delivery.None? && r.invitationAccepted == Some(true)
  {
    match e
    case StateChanged(_, _, peers) => Reaction(Session(peers), None, None)
    case DataReceived(data, from) =>
      var delivery := match DecodeLocation(data)
        case Some(c) => Some(Delivery(from, c))
        case None => None;
      Reaction(s, delivery, None)
    case InvitationReceived(_) => Reaction(s, None, Some(true))
  }

  /** A coordinate sent by one device arrives unchanged at each recipient,
      tagged with the sender's id. */
  lemma SendThenReceive(sender: PeerId, connected: seq<PeerId>, c: Coordinate, s: Session)
    requires |connected| > 0
    ensures Send(connected, c, true).Some?
    ensures Handle(s, DataReceived(Some(Send(connected, c, true).value.payload), sender)).delivery
            == Some(Delivery(sender, c))
  {
  }

  /** A payload missing either key produces no delivery and no change. */
  lemma MissingKeyIsDropped(s: Session, fields: map<string, Value>, from: PeerId)
    requires LatKey !in fields || LonKey !in fields
    ensures Handle(s, DataReceived(Some(Object(fields)), from)) == Reaction(s, None, None)
  {
  }

  /** A payload with a non-numeric entry under any key is dropped, even when
      both coordinates are present. */
  lemma NonNumericEntryIsDropped(s: Session, fields: map<string, Value>, key: string, bad: Value, from: PeerId)
    requires !bad.Number?
    ensures Handle(s, DataReceived(Some(Object(fields[key := bad])), from)) == Reaction(s, None, None)
  {
    assert fields[key := bad][key] == bad;
  }

  /** An extra numeric entry does not change what is delivered. */
  lemma ExtraNumberIsIgnored(fields: map<string, Value>, key: string, x: real)
    requires key != LatKey && key != LonKey && key !in fields
    ensures DecodeLocation(Some(Object(fields[key := Number(x)]))) == DecodeLocation(Some(Object(fields)))
  {
    var f := fields[key := Number(x)];
    assert forall k | k in fields :: f[k] == fields[k];
    if forall k | k in fields :: fields[k].Number? {
      assert forall k | k in f :: f[k].Number?;
    }
  }
}
