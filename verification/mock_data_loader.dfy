/** The bundled event data set and its queries (src/utils/mockDataLoader.ts):
    conversion of raw locations and messages into map points and message
    groups, flattening, lookup by conversation and by message, and the
    bounding-box filters for London and the rest of the world. The JSON file
    itself is not modelled: every query takes the loaded data as a parameter. */
module MockDataLoader {

  import opened Optional
  import opened Types
  import opened Seqs

  datatype MockLocation = MockLocation(
    id: string,
    coordinates: Coord,
    labelText: string,  // `label` in the source
    context: string,
    timestamp: string)

  datatype MockMessage = MockMessage(
    messageId: string,
    summary: string,
    timestamp: string,
    locations: seq<MockLocation>)

  datatype MockConversation = MockConversation(
    conversationId: string,
    title: string,
    timestamp: string,
    messages: seq<MockMessage>)

  /** The loaded data; its descriptive `metadata` block is left out. */
  datatype MockEventsData = MockEventsData(conversations: seq<MockConversation>)

  // ---------------------------------------------------------------------------
  // Conversion

  /** A map point that carries the location's fields and the id of the message
      that mentions it. */
  function ConvertToMapPoint(location: MockLocation, messageId: string): (p: MapPoint)
    ensures p.id == location.id && p.coordinates == location.coordinates
    ensures p.labelText == location.labelText && p.context == location.context
    ensures p.messageId == messageId && p.timestamp == Some(location.timestamp)
  {
    MapPoint(location.id, location.coordinates, location.labelText, messageId, Some(location.timestamp), location.context)
  }

  /** The map points of one message, in order. */
  function MessagePoints(m: MockMessage): (r: seq<MapPoint>)
    ensures |r| == |m.locations|
    ensures forall k :: 0 <= k < |r| ==> r[k] == ConvertToMapPoint(m.locations[k], m.messageId)
  {
    Map(m.locations, (loc: MockLocation) => ConvertToMapPoint(loc, m.messageId))
  }

  /** A message group; the timestamp stays the unparsed text given to `new Date`. */
  function ConvertToMessageGroup(m: MockMessage): (g: MessageGroup)
    ensures g.messageId == m.messageId && g.summary == m.summary && g.timestamp == m.timestamp
    ensures |g.locations| == |m.locations|
    ensures forall k :: 0 <= k < |g.locations| ==> g.locations[k] == ConvertToMapPoint(m.locations[k], m.messageId)
    ensures forall k :: 0 <= k < |g.locations| ==> ToMockLocation(g.locations[k]) == m.locations[k]
    ensures forall p :: p in g.locations ==> p.messageId == m.messageId
  {
    MessageGroup(m.messageId, m.summary, MessagePoints(m), m.timestamp)
  }

  /** The conversion keeps every location's own data, so the raw location can
      be read back from the map point. */
  function ToMockLocation(p: MapPoint): MockLocation {
    MockLocation(p.id, p.coordinates, p.labelText, p.context,
                 if p.timestamp.Some? then p.timestamp.value else "")
  }

  lemma ConvertRoundTrip(location: MockLocation, messageId: string)
    ensures ToMockLocation(ConvertToMapPoint(location, messageId)) == location
  {
  }

  // ---------------------------------------------------------------------------
  // Flattening

  function MessagesPoints(ms: seq<MockMessage>): seq<MapPoint> {
    if ms == [] then [] else MessagePoints(ms[0]) + MessagesPoints(ms[1..])
  }

  /** All locations, conversation by conversation, message by message. */
  function ConversationsPoints(cs: seq<MockConversation>): seq<MapPoint> {
    if cs == [] then [] else MessagesPoints(cs[0].messages) + ConversationsPoints(cs[1..])
  }

  /** The number of raw locations in the data. */
  function LocationCount(cs: seq<MockConversation>): nat {
    if cs == [] then 0 else MessagesLocationCount(cs[0].messages) + LocationCount(cs[1..])
  }

  function MessagesLocationCount(ms: seq<MockMessage>): nat {
    if ms == [] then 0 else |ms[0].locations| + MessagesLocationCount(ms[1..])
  }

  function MessageCount(cs: seq<MockConversation>): nat {
    if cs == [] then 0 else |cs[0].messages| + MessageCount(cs[1..])
  }

  /** The location `k` of message `j` of conversation `i` exists. */
  predicate ValidPosition(cs: seq<MockConversation>, i: int, j: int, k: int) {
    && 0 <= i < |cs|
    && 0 <= j < |cs[i].messages|
    && 0 <= k < |cs[i].messages[j].locations|
  }

  /** The map point made from the location at that position. */
  function PointAt(cs: seq<MockConversation>, i: int, j: int, k: int): MapPoint
    requires ValidPosition(cs, i, j, k)
  {
    ConvertToMapPoint(cs[i].messages[j].locations[k], cs[i].messages[j].messageId)
  }

  /** Where the location at a valid position lands in the flattened list:
      after every location of the earlier conversations, then after every
      location of the earlier messages of its own conversation. */
  function Offset(cs: seq<MockConversation>, i: int, j: int, k: int): nat
    requires ValidPosition(cs, i, j, k)
  {
    LocationCount(cs[..i]) + MessagesLocationCount(cs[i].messages[..j]) + k
  }

  /** One map point per raw location, conversation by conversation, message
      by message, location by location. */
  function GetAllLocationsAsMapPoints(data: MockEventsData): (r: seq<MapPoint>)
    ensures |r| == LocationCount(data.conversations)
    ensures forall i, j, k :: ValidPosition(data.conversations, i, j, k) ==>
              Offset(data.conversations, i, j, k) < |r| && r[Offset(data.conversations, i, j, k)] == PointAt(data.conversations, i, j, k)
    ensures forall p :: p in r <==>
              exists i, j, k :: ValidPosition(data.conversations, i, j, k) && p == PointAt(data.conversations, i, j, k)
  {
    var cs := data.conversations;
    AllPointsLength(cs);
    AllPointsMembership(cs);
    forall i, j, k | ValidPosition(cs, i, j, k)
      ensures Offset(cs, i, j, k) < |ConversationsPoints(cs)|
      ensures ConversationsPoints(cs)[Offset(cs, i, j, k)] == PointAt(cs, i, j, k)
    {
      AllPointsIndex(cs, i, j, k);
    }
    ConversationsPoints(cs)
  }

  /** The location at position `k` of message `j` sits after all locations of
      the messages before `j`. */
  lemma {:induction false} MessagesPointIndex(ms: seq<MockMessage>, j: int, k: int)
    requires 0 <= j < |ms| && 0 <= k < |ms[j].locations|
    ensures MessagesLocationCount(ms[..j]) + k < |MessagesPoints(ms)|
    ensures MessagesPoints(ms)[MessagesLocationCount(ms[..j]) + k] == ConvertToMapPoint(ms[j].locations[k], ms[j].messageId)
  {
    if j == 0 {
      assert ms[..0] == [];
    } else {
      MessagesPointIndex(ms[1..], j - 1, k);
      assert ms[..j][1..] == ms[1..][..j - 1];
      assert ms[1..][j - 1] == ms[j];
    }
  }

  /** The point of a valid position sits at its offset. */
  lemma {:induction false} AllPointsIndex(cs: seq<MockConversation>, i: int, j: int, k: int)
    requires ValidPosition(cs, i, j, k)
    ensures Offset(cs, i, j, k) < |ConversationsPoints(cs)|
    ensures ConversationsPoints(cs)[Offset(cs, i, j, k)] == PointAt(cs, i, j, k)
  {
    if i == 0 {
      assert cs[..0] == [];
      MessagesPointIndex(cs[0].messages, j, k);
    } else {
      assert cs[1..][i - 1] == cs[i];
      assert cs[..i][1..] == cs[1..][..i - 1];
      AllPointsIndex(cs[1..], i - 1, j, k);
      MessagesPointsLength(cs[0].messages);
    }
  }

  lemma {:induction false} MessagesPointsLength(ms: seq<MockMessage>)
    ensures |MessagesPoints(ms)| == MessagesLocationCount(ms)
  {
    if ms != [] {
      MessagesPointsLength(ms[1..]);
    }
  }

  lemma {:induction false} AllPointsLength(cs: seq<MockConversation>)
    ensures |ConversationsPoints(cs)| == LocationCount(cs)
  {
    if cs != [] {
      MessagesPointsLength(cs[0].messages);
      AllPointsLength(cs[1..]);
    }
  }

  /** Every point of a message list comes from one of its locations. */
  lemma {:induction false} MessagesPointSource(ms: seq<MockMessage>, p: MapPoint)
    requires p in MessagesPoints(ms)
    ensures exists j, k :: && 0 <= j < |ms| && 0 <= k < |ms[j].locations|
                           && p == ConvertToMapPoint(ms[j].locations[k], ms[j].messageId)
  {
    if p in MessagePoints(ms[0]) {
      var k :| 0 <= k < |ms[0].locations| && MessagePoints(ms[0])[k] == p;
      assert p == ConvertToMapPoint(ms[0].locations[k], ms[0].messageId);
    } else {
      MessagesPointSource(ms[1..], p);
      var j, k :| && 0 <= j < |ms[1..]| && 0 <= k < |ms[1..][j].locations|
                  && p == ConvertToMapPoint(ms[1..][j].locations[k], ms[1..][j].messageId);
      assert ms[1..][j] == ms[j + 1];
    }
  }

  /** Every location of a message list yields a point. */
  lemma {:induction false} MessagesPointReached(ms: seq<MockMessage>, j: int, k: int)
    requires 0 <= j < |ms| && 0 <= k < |ms[j].locations|
    ensures ConvertToMapPoint(ms[j].locations[k], ms[j].messageId) in MessagesPoints(ms)
  {
    if j == 0 {
      assert MessagePoints(ms[0])[k] == ConvertToMapPoint(ms[0].locations[k], ms[0].messageId);
    } else {
      MessagesPointReached(ms[1..], j - 1, k);
      assert ms[1..][j - 1] == ms[j];
    }
  }

  /** Every point of the data comes from a valid position. */
  lemma {:induction false} AllPointsSource(cs: seq<MockConversation>, p: MapPoint)
    requires p in ConversationsPoints(cs)
    ensures exists i, j, k :: ValidPosition(cs, i, j, k) && p == PointAt(cs, i, j, k)
  {
    if p in MessagesPoints(cs[0].messages) {
      MessagesPointSource(cs[0].messages, p);
      var j, k :| && 0 <= j < |cs[0].messages| && 0 <= k < |cs[0].messages[j].locations|
                  && p == ConvertToMapPoint(cs[0].messages[j].locations[k], cs[0].messages[j].messageId);
      assert ValidPosition(cs, 0, j, k) && p == PointAt(cs, 0, j, k);
    } else {
      AllPointsSource(cs[1..], p);
      var i, j, k :| ValidPosition(cs[1..], i, j, k) && p == PointAt(cs[1..], i, j, k);
      assert cs[1..][i] == cs[i + 1];
      assert ValidPosition(cs, i + 1, j, k) && p == PointAt(cs, i + 1, j, k);
    }
  }

  /** Every valid position yields a point of the data. */
  lemma {:induction false} AllPointsReached(cs: seq<MockConversation>, i: int, j: int, k: int)
    requires ValidPosition(cs, i, j, k)
    ensures PointAt(cs, i, j, k) in ConversationsPoints(cs)
  {
    if i == 0 {
      MessagesPointReached(cs[0].messages, j, k);
    } else {
      assert cs[1..][i - 1] == cs[i];
      assert ValidPosition(cs[1..], i - 1, j, k) && PointAt(cs, i, j, k) == PointAt(cs[1..], i - 1, j, k);
      AllPointsReached(cs[1..], i - 1, j, k);
    }
  }

  lemma AllPointsMembership(cs: seq<MockConversation>)
    ensures forall p :: p in ConversationsPoints(cs) <==>
              exists i, j, k :: ValidPosition(cs, i, j, k) && p == PointAt(cs, i, j, k)
  {
    forall p
      ensures p in ConversationsPoints(cs) <==>
              exists i, j, k :: ValidPosition(cs, i, j, k) && p == PointAt(cs, i, j, k)
    {
      if p in ConversationsPoints(cs) {
        AllPointsSource(cs, p);
      }
      if exists i, j, k :: ValidPosition(cs, i, j, k) && p == PointAt(cs, i, j, k) {
        var i, j, k :| ValidPosition(cs, i, j, k) && p == PointAt(cs, i, j, k);
        AllPointsReached(cs, i, j, k);
      }
    }
  }


  /** Flattening distributes over concatenation of message lists. */
  lemma {:induction false} MessagesPointsAppend(a: seq<MockMessage>, b: seq<MockMessage>)
    ensures MessagesPoints(a + b) == MessagesPoints(a) + MessagesPoints(b)
  {
    if a == [] {
      assert a + b == b;
    } else {
      assert (a + b)[1..] == a[1..] + b;
      MessagesPointsAppend(a[1..], b);
    }
  }

  /** Flattening distributes over concatenation of conversation lists. */
  lemma {:induction false} ConversationsPointsAppend(a: seq<MockConversation>, b: seq<MockConversation>)
    ensures ConversationsPoints(a + b) == ConversationsPoints(a) + ConversationsPoints(b)
  {
    if a == [] {
      assert a + b == b;
    } else {
      assert (a + b)[1..] == a[1..] + b;
      ConversationsPointsAppend(a[1..], b);
    }
  }

  // ---------------------------------------------------------------------------
  // Lookups

  /** The index of the first conversation with the given id. */
  function FindConversation(cs: seq<MockConversation>, conversationId: string): (r: Option<nat>)
    ensures r.None? <==> forall i :: 0 <= i < |cs| ==> cs[i].conversationId != conversationId
    ensures r.Some? ==> && r.value < |cs|
                        && cs[r.value].conversationId == conversationId
                        && forall i :: 0 <= i < r.value ==> cs[i].conversationId != conversationId
  {
    if cs == [] then None
    else if cs[0].conversationId == conversationId then Some(0)
    else
      var r := FindConversation(cs[1..], conversationId);
      if r.Some? then Some(r.value + 1) else None
  }

  /** The message groups of the first conversation with that id; `[]` when
      there is none. */
  function GetLocationsByConversation(data: MockEventsData, conversationId: string): (r: seq<MessageGroup>)
    ensures (forall i :: 0 <= i < |data.conversations| ==> data.conversations[i].conversationId != conversationId)
            ==> r == []
    ensures forall i :: && 0 <= i < |data.conversations|
                        && data.conversations[i].conversationId == conversationId
                        && (forall h :: 0 <= h < i ==> data.conversations[h].conversationId != conversationId)
                        ==> && |r| == |data.conversations[i].messages|
                            && forall j :: 0 <= j < |r| ==> r[j] == ConvertToMessageGroup(data.conversations[i].messages[j])
  {
    var found := FindConversation(data.conversations, conversationId);
    if found.None? then []
    else Map(data.conversations[found.value].messages, ConvertToMessageGroup)
  }

  /** The position of the first message with the given id, scanning the
      conversations in order and each conversation's messages in order. */
  function FindMessage(cs: seq<MockConversation>, messageId: string): (r: Option<(nat, nat)>)
    ensures r.None? <==>
              forall i, j :: 0 <= i < |cs| && 0 <= j < |cs[i].messages| ==> cs[i].messages[j].messageId != messageId
    ensures r.Some? ==> && r.value.0 < |cs| && r.value.1 < |cs[r.value.0].messages|
                        && cs[r.value.0].messages[r.value.1].messageId == messageId
                        && (forall i, j :: 0 <= i < r.value.0 && 0 <= j < |cs[i].messages|
                              ==> cs[i].messages[j].messageId != messageId)
                        && (forall j :: 0 <= j < r.value.1 ==> cs[r.value.0].messages[j].messageId != messageId)
  {
    if cs == [] then None
    else
      var j := FindMessageIn(cs[0].messages, messageId);
      if j.Some? then Some((0, j.value))
      else
        var r := FindMessage(cs[1..], messageId);
        if r.None? then
          assert forall i, j :: 0 <= i < |cs| && 0 <= j < |cs[i].messages| ==> cs[i].messages[j].messageId != messageId by {
            forall i, j | 0 <= i < |cs| && 0 <= j < |cs[i].messages|
              ensures cs[i].messages[j].messageId != messageId
            {
              if i > 0 {
                assert cs[1..][i - 1] == cs[i];
              }
            }
          }
          None
        else
          var i', j' := r.value.0, r.value.1;
          assert cs[1..][i'] == cs[i' + 1];
          assert forall i, j :: 0 <= i < i' + 1 && 0 <= j < |cs[i].messages| ==> cs[i].messages[j].messageId != messageId by {
            forall i, j | 0 <= i < i' + 1 && 0 <= j < |cs[i].messages|
              ensures cs[i].messages[j].messageId != messageId
            {
              if i > 0 {
                assert cs[1..][i - 1] == cs[i];
              }
            }
          }
          Some((i' + 1, j'))
  }

  /** The index of the first message with the given id. */
  function FindMessageIn(ms: seq<MockMessage>, messageId: string): (r: Option<nat>)
    ensures r.None? <==> forall j :: 0 <= j < |ms| ==> ms[j].messageId != messageId
    ensures r.Some? ==> && r.value < |ms|
                        && ms[r.value].messageId == messageId
                        && forall j :: 0 <= j < r.value ==> ms[j].messageId != messageId
  {
    if ms == [] then None
    else if ms[0].messageId == messageId then Some(0)
    else
      var r := FindMessageIn(ms[1..], messageId);
      if r.Some? then Some(r.value + 1) else None
  }

  /** The map points of the first message with that id; `[]` when there is
      none. */
  function GetLocationsByMessage(data: MockEventsData, messageId: string): (r: seq<MapPoint>)
    ensures (forall i, j :: 0 <= i < |data.conversations| && 0 <= j < |data.conversations[i].messages|
               ==> data.conversations[i].messages[j].messageId != messageId)
            ==> r == []
    ensures forall i, j :: FirstMessage(data.conversations, messageId, i, j)
              ==> r == MessagePoints(data.conversations[i].messages[j])
    ensures forall p :: p in r ==> p.messageId == messageId
    ensures forall p :: p in r ==> p in GetAllLocationsAsMapPoints(data)
  {
    var found := FindMessage(data.conversations, messageId);
    if found.None? then []
    else
      var i, j := found.value.0, found.value.1;
      var r := MessagePoints(data.conversations[i].messages[j]);
      assert forall i', j' :: FirstMessage(data.conversations, messageId, i', j') ==> i' == i && j' == j by {
        forall i', j' | FirstMessage(data.conversations, messageId, i', j') ensures i' == i && j' == j {
          FirstMessageUnique(data.conversations, messageId, i, j, i', j');
        }
      }
      assert forall p :: p in r ==> p in GetAllLocationsAsMapPoints(data) by {
        forall p | p in r ensures p in GetAllLocationsAsMapPoints(data) {
          var k :| 0 <= k < |r| && r[k] == p;
          assert ValidPosition(data.conversations, i, j, k) && p == PointAt(data.conversations, i, j, k);
        }
      }
      r
  }

  /** Message `j` of conversation `i` is the first one, in scan order, with
      the given id. */
  predicate FirstMessage(cs: seq<MockConversation>, messageId: string, i: int, j: int) {
    && 0 <= i < |cs| && 0 <= j < |cs[i].messages|
    && cs[i].messages[j].messageId == messageId
    && (forall i', j' :: 0 <= i' < i && 0 <= j' < |cs[i'].messages| ==> cs[i'].messages[j'].messageId != messageId)
    && (forall j' :: 0 <= j' < j ==> cs[i].messages[j'].messageId != messageId)
  }

  /** There is at most one first match. */
  lemma FirstMessageUnique(cs: seq<MockConversation>, messageId: string, i1: int, j1: int, i2: int, j2: int)
    requires FirstMessage(cs, messageId, i1, j1) && FirstMessage(cs, messageId, i2, j2)
    ensures i1 == i2 && j1 == j2
  {
  }

  /** The scenario record, keyed by scenario name. */
  function ScenarioMap(dense: seq<MapPoint>, warehouse: seq<MapPoint>, gang: seq<MapPoint>, transport: seq<MapPoint>)
    : (r: map<string, seq<MapPoint>>)
    ensures r.Keys == {"dense_cluster", "warehouse_investigation", "gang_territory", "transport_hubs"}
    ensures r["dense_cluster"] == dense && r["warehouse_investigation"] == warehouse
    ensures r["gang_territory"] == gang && r["transport_hubs"] == transport
  {
    assert "gang_territory"[0] != "transport_hubs"[0];
    assert "dense_cluster"[0] != "transport_hubs"[0];
    assert "dense_cluster"[0] != "gang_territory"[0];
    map[
      "dense_cluster" := dense, "warehouse_investigation" := warehouse,
      "gang_territory" := gang, "transport_hubs" := transport]
  }

  /** The four clustering scenarios, each the points of one message. */
  function GetClusteringTestScenarios(data: MockEventsData): (r: map<string, seq<MapPoint>>)
    ensures r.Keys == {"dense_cluster", "warehouse_investigation", "gang_territory", "transport_hubs"}
    ensures r["dense_cluster"] == GetLocationsByMessage(data, "msg_covent_garden")
    ensures r["warehouse_investigation"] == GetLocationsByMessage(data, "msg_warehouse_calls")
    ensures r["gang_territory"] == GetLocationsByMessage(data, "msg_south_london")
    ensures r["transport_hubs"] == GetLocationsByMessage(data, "msg_kings_cross")
  {
    ScenarioMap(
      GetLocationsByMessage(data, "msg_covent_garden"),
      GetLocationsByMessage(data, "msg_warehouse_calls"),
      GetLocationsByMessage(data, "msg_south_london"),
      GetLocationsByMessage(data, "msg_kings_cross"))
  }

  /** Every scenario is drawn from the data's own points. */
  lemma ScenariosDrawFromData(data: MockEventsData, name: string)
    requires name in GetClusteringTestScenarios(data)
    ensures forall p :: p in GetClusteringTestScenarios(data)[name] ==> p in GetAllLocationsAsMapPoints(data)
  {
  }

  // ---------------------------------------------------------------------------
  // Bounding boxes

  datatype BoundingBox = BoundingBox(west: real, south: real, east: real, north: real)

  /** Inclusive on all four sides. */
  predicate InBox(c: Coord, box: BoundingBox) {
    box.west <= c.lng <= box.east && box.south <= c.lat <= box.north
  }

  /** The approximate London area used to split the data. */
  const LONDON: BoundingBox := BoundingBox(-0.5, 51.4, 0.1, 51.6)

  function GetLocationsByBoundingBox(data: MockEventsData, west: real, south: real, east: real, north: real)
    : (r: seq<MapPoint>)
    ensures forall p :: p in r <==>
              p in GetAllLocationsAsMapPoints(data) && InBox(p.coordinates, BoundingBox(west, south, east, north))
    ensures IsSubsequence(r, GetAllLocationsAsMapPoints(data))
    ensures west > east || south > north ==> r == []
  {
    var box := BoundingBox(west, south, east, north);
    var r := Filter(GetAllLocationsAsMapPoints(data), (p: MapPoint) => InBox(p.coordinates, box));
    assert west > east || south > north ==> r == [] by {
      if r != [] {
        assert r[0] in r;
      }
    }
    r
  }

  /** A box inside another selects a subset of its locations. */
  lemma BoundingBoxMonotonic(data: MockEventsData, inner: BoundingBox, outer: BoundingBox)
    requires outer.west <= inner.west && inner.east <= outer.east
    requires outer.south <= inner.south && inner.north <= outer.north
    ensures forall p :: p in GetLocationsByBoundingBox(data, inner.west, inner.south, inner.east, inner.north)
              ==> p in GetLocationsByBoundingBox(data, outer.west, outer.south, outer.east, outer.north)
  {
  }

  function GetLondonLocations(data: MockEventsData): (r: seq<MapPoint>)
    ensures forall p :: p in r ==> InBox(p.coordinates, LONDON)
  {
    GetLocationsByBoundingBox(data, LONDON.west, LONDON.south, LONDON.east, LONDON.north)
  }

  /** The points outside the London box, in order. */
  function GetInternationalLocations(data: MockEventsData): (r: seq<MapPoint>)
    ensures forall p :: p in r <==> p in GetAllLocationsAsMapPoints(data) && !InBox(p.coordinates, LONDON)
    ensures IsSubsequence(r, GetAllLocationsAsMapPoints(data))
  {
    Filter(GetAllLocationsAsMapPoints(data), (p: MapPoint) => !InBox(p.coordinates, LONDON))
  }

  /** London and international locations split the data: together they hold
      every location exactly as often as the data does, and no point is in both. */
  lemma LondonInternationalPartition(data: MockEventsData)
    ensures |GetLondonLocations(data)| + |GetInternationalLocations(data)| == |GetAllLocationsAsMapPoints(data)|
    ensures multiset(GetLondonLocations(data)) + multiset(GetInternationalLocations(data))
            == multiset(GetAllLocationsAsMapPoints(data))
    ensures forall p :: !(p in GetLondonLocations(data) && p in GetInternationalLocations(data))
  {
    var all := GetAllLocationsAsMapPoints(data);
    var inLondon := (p: MapPoint) => InBox(p.coordinates, BoundingBox(LONDON.west, LONDON.south, LONDON.east, LONDON.north));
    var outside := (p: MapPoint) => !InBox(p.coordinates, LONDON);
    assert GetLondonLocations(data) == Filter(all, inLondon);
    assert GetInternationalLocations(data) == Filter(all, outside);
    FilterPartition(all, inLondon, outside);
  }

  // ---------------------------------------------------------------------------
  // Statistics

  /** The counts of getMockDataStats; the metadata ranges it copies are left out. */
  datatype MockDataStats = MockDataStats(
    conversations: nat,
    messages: nat,
    locations: nat,
    londonLocations: nat,
    internationalLocations: nat)

  function GetMockDataStats(data: MockEventsData): (s: MockDataStats)
    ensures s.conversations == |data.conversations|
    ensures s.messages == MessageCount(data.conversations)
    ensures s.locations == LocationCount(data.conversations)
    ensures s.locations == s.londonLocations + s.internationalLocations
  {
    LondonInternationalPartition(data);
    MockDataStats(
      |data.conversations|,
      MessageCount(data.conversations),
      |GetAllLocationsAsMapPoints(data)|,
      |GetLondonLocations(data)|,
      |GetInternationalLocations(data)|)
  }
}
