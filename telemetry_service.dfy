/**
 * The telemetry service: a presence store that emulates a per-device time to
 * live over a geo set. Three logical tables live in Redis: the geo set
 * (device to position), the TTL markers (one expiring key per device) and the
 * metadata hashes (device to accuracy, timestamp and coordinates). Redis lets
 * markers and hashes lapse on its own clock; the geo set never expires, so
 * every read checks the marker and a periodic cleanup drops geo members
 * whose marker is gone.
 */
module Telemetry {
  import opened Wrappers
  import opened GeoBounds
  import ServerErrors

  /** `settings.LOCATION_PING_TTL`, the lifetime of a marker and a metadata hash. */
  const PingTtl: nat := 60

  /** A member's position in the geo set; GEOPOS reports it longitude first. */
  datatype Position = Position(longitude: real, latitude: real)

  /** The metadata hash of a device. */
  datatype Metadata = Metadata(accuracy: real, timestamp: string, latitude: real, longitude: real)

  /** The dictionary a successful store returns. */
  datatype PingReceipt = PingReceipt(status: string, stored: bool, nextPingInterval: int)

  /**
   * What a store raises: ValueError for a coordinate out of range, CacheError
   * for any Redis failure, its text embedding the Redis exception's.
   */
  datatype StoreError = ValueError(reason: ServerErrors.CoordError) | CacheError(text: string)

  /** The four Redis writes of a store, in the order they are issued. */
  datatype StoreStep = GeoAdd | SetMarker | SetMeta | ExpireMeta

  /** The Redis calls a cleanup makes for one geo member: the marker check, then ZREM and DEL for an expired one. */
  datatype CleanupCall = ExistsCall | ZremCall | DeleteCall

  /** The Redis call of a cleanup that raises: the initial ZRANGE, or a call made for the `k`-th member examined. */
  datatype CleanupFault = RangeFails | MemberFails(k: nat, call: CleanupCall)

  /** A Redis call of a store that raises, and the text of what it raises. */
  datatype StoreFault = StoreFault(step: StoreStep, text: string)

  const CacheErrorPrefix: string := "Failed to store location ping: "

  function StepIndex(step: StoreStep): nat
  {
    match step
    case GeoAdd => 0
    case SetMarker => 1
    case SetMeta => 2
    case ExpireMeta => 3
  }

  /** Whether `step` took effect when the store raised at `fault` (or did not raise). */
  predicate Completed(fault: Option<StoreFault>, step: StoreStep)
  {
    fault.None? || StepIndex(step) < StepIndex(fault.value.step)
  }

  /**
   * `random.randint(30, 60)`, drawn from a caller-supplied `choice`: always
   * in range, and every value of the range is drawn by some choice.
   */
  function NextPingInterval(choice: nat): (n: int)
    ensures 30 <= n <= 60
    ensures choice <= 30 ==> n == 30 + choice
  {
    30 + choice % 31
  }

  /** The dictionary `get_location_ping` returns. */
  datatype PingRecord = PingRecord(deviceId: string, latitude: real, longitude: real,
                                   accuracy: real, timestamp: string)

  /** One GEORADIUS result: member, distance and coordinates (longitude first). */
  datatype RadiusHit = RadiusHit(deviceId: string, distance: real, longitude: real, latitude: real)

  /** One entry of the list `get_nearby_devices` returns. */
  datatype NearbyDevice = NearbyDevice(deviceId: string, distance: real, latitude: real, longitude: real)

  function AsNearby(h: RadiusHit): NearbyDevice
  {
    NearbyDevice(h.deviceId, h.distance, h.latitude, h.longitude)
  }

  /**
   * The radius hits whose device still has a live marker, in the order the
   * search returned them.
   */
  function LiveHits(hits: seq<RadiusHit>, live: set<string>): (r: seq<NearbyDevice>)
    ensures |r| <= |hits|
    ensures forall x :: x in r ==> x.deviceId in live
    ensures forall x :: x in r ==> exists h :: h in hits && x == AsNearby(h)
    ensures forall h :: h in hits && h.deviceId in live ==> AsNearby(h) in r
    ensures (forall h :: h in hits ==> h.deviceId in live) ==> |r| == |hits|
  {
    if hits == [] then []
    else
      var init, last := hits[..|hits| - 1], hits[|hits| - 1];
      assert hits == init + [last];
      LiveHits(init, live) + (if last.deviceId in live then [AsNearby(last)] else [])
  }

  lemma MinusOneMore<V>(m: map<string, V>, gone: set<string>, d: string)
    ensures (m - gone) - {d} == m - (gone + {d})
  {
  }

  /** Geo members without a marker. */
  function ExpiredIn(geo: map<string, Position>, markers: set<string>): (e: set<string>)
    ensures forall d :: d in e <==> d in geo && d !in markers
  {
    set d | d in geo && d !in markers
  }

  /** `d` is among the members ZRANGE listed. */
  ghost predicate Listed(members: seq<string>, d: string)
  {
    d in members
  }

  /** What ZRANGE over the geo set returns: every member, each once. */
  ghost predicate Enumerates(members: seq<string>, geo: map<string, Position>)
  {
    && (forall d {:trigger Listed(members, d)} :: Listed(members, d) <==> d in geo)
    && (forall i, j :: 0 <= i < j < |members| ==> members[i] != members[j])
  }

  /** The members among the first `n` of `members` that have no marker. */
  function ExpiredPrefix(members: seq<string>, markers: set<string>, n: nat): set<string>
    requires n <= |members|
  {
    if n == 0 then {}
    else ExpiredPrefix(members, markers, n - 1) + (if members[n - 1] in markers then {} else {members[n - 1]})
  }

  /** The expired prefix holds exactly the first `n` members that have no marker. */
  lemma {:induction false} ExpiredPrefixHolds(members: seq<string>, markers: set<string>, n: nat)
    requires n <= |members|
    ensures forall d :: d in ExpiredPrefix(members, markers, n) <==> d in members[..n] && d !in markers
  {
    if n > 0 {
      ExpiredPrefixHolds(members, markers, n - 1);
      assert members[..n] == members[..n - 1] + [members[n - 1]];
    }
  }

  /** The next member examined is not among those examined before it. */
  lemma NextUnexamined(members: seq<string>, markers: set<string>, geo: map<string, Position>, n: nat)
    requires Enumerates(members, geo) && n < |members|
    ensures members[n] !in ExpiredPrefix(members, markers, n)
  {
    ExpiredPrefixHolds(members, markers, n);
    forall j | 0 <= j < n ensures members[..n][j] != members[n] {
      assert members[..n][j] == members[j];
    }
  }

  /** Examining the `n`-th member adds it to the expired prefix exactly when it has no marker. */
  lemma ExpiredPrefixNext(members: seq<string>, markers: set<string>, geo: map<string, Position>, n: nat)
    requires Enumerates(members, geo) && n < |members|
    ensures members[n] in markers ==> ExpiredPrefix(members, markers, n + 1) == ExpiredPrefix(members, markers, n)
    ensures members[n] !in markers ==>
              && ExpiredPrefix(members, markers, n + 1) == ExpiredPrefix(members, markers, n) + {members[n]}
              && |ExpiredPrefix(members, markers, n + 1)| == |ExpiredPrefix(members, markers, n)| + 1
  {
    NextUnexamined(members, markers, geo, n);
  }

  /** Once every member is examined, the expired prefix is the set of expired members. */
  lemma ExpiredPrefixAll(members: seq<string>, markers: set<string>, geo: map<string, Position>)
    requires Enumerates(members, geo)
    ensures ExpiredPrefix(members, markers, |members|) == ExpiredIn(geo, markers)
  {
    ExpiredPrefixHolds(members, markers, |members|);
    forall d | d in geo || d in members
      ensures d in geo <==> d in members
    {
      assert Listed(members, d);
    }
    assert members[..|members|] == members;
  }

  /** The call made for the `i`-th member that raises, if any. */
  function FaultAt(fault: Option<CleanupFault>, i: nat): Option<CleanupCall>
  {
    if fault.Some? && fault.value.MemberFails? && fault.value.k == i then Some(fault.value.call) else None
  }

  /**
   * Whether a cleanup over `members` reaches `fault`: a failing ZRANGE
   * always, a failing marker check of a listed member always, and a failing
   * ZREM or DEL only for a member without a marker, the only ones they are
   * issued for.
   */
  predicate Reaches(members: seq<string>, markers: set<string>, fault: Option<CleanupFault>)
  {
    && fault.Some?
    && (fault.value.RangeFails?
        || (fault.value.k < |members| && (fault.value.call == ExistsCall || members[fault.value.k] !in markers)))
  }

  /** How many members a cleanup examines in full before it stops. */
  function Examined(members: seq<string>, markers: set<string>, fault: Option<CleanupFault>): (n: nat)
    ensures n <= |members|
    ensures !Reaches(members, markers, fault) ==> n == |members|
  {
    if !Reaches(members, markers, fault) then |members|
    else if fault.value.RangeFails? then 0
    else fault.value.k
  }

  /** The member whose ZREM took effect but whose DEL raised, if any. */
  function HalfRemoved(members: seq<string>, markers: set<string>, fault: Option<CleanupFault>): (h: set<string>)
    ensures |h| <= 1
    ensures h != {} ==> Reaches(members, markers, fault) && fault.value.MemberFails? && fault.value.call == DeleteCall
  {
    if Reaches(members, markers, fault) && fault.value.MemberFails? && fault.value.call == DeleteCall
    then {members[fault.value.k]} else {}
  }

  /** A member whose calls all succeed is examined in full, and the cleanup goes on to the next. */
  lemma CleanupPasses(members: seq<string>, markers: set<string>, fault: Option<CleanupFault>, i: nat)
    requires i < |members| && i <= Examined(members, markers, fault) && fault != Some(RangeFails)
    requires FaultAt(fault, i) != Some(ExistsCall)
    requires members[i] in markers || FaultAt(fault, i) == None
    ensures i + 1 <= Examined(members, markers, fault)
  {
  }

  /**
   * What a cleanup over `members` leaves, from the geo set `geo0` and the
   * hashes `meta0`: the members it examined in full that had no marker are
   * gone from both; the one whose DEL raised, if any, is gone from the geo
   * set only. The count is the number of expired members, or 0 when the
   * fault was reached, and without a fault reached nothing expired remains.
   */
  ghost predicate CleanupResult(members: seq<string>, markers: set<string>, fault: Option<CleanupFault>,
                                geo0: map<string, Position>, meta0: map<string, Metadata>,
                                geo: map<string, Position>, meta: map<string, Metadata>, removed: nat)
  {
    && geo == geo0 - (ExpiredPrefix(members, markers, Examined(members, markers, fault))
                      + HalfRemoved(members, markers, fault))
    && meta == meta0 - ExpiredPrefix(members, markers, Examined(members, markers, fault))
    && removed == (if Reaches(members, markers, fault) then 0 else |ExpiredIn(geo0, markers)|)
    && (!Reaches(members, markers, fault) ==> ExpiredIn(geo, markers) == {})
  }

  /** A failing ZRANGE: nothing is removed. */
  lemma CleanupRangeFails(members: seq<string>, markers: set<string>,
                          geo: map<string, Position>, meta: map<string, Metadata>)
    ensures CleanupResult(members, markers, Some(RangeFails), geo, meta, geo, meta, 0)
  {
    assert geo - {} == geo;
    assert meta - {} == meta;
  }

  /** A call for the `i`-th member that raises stops the cleanup there. */
  lemma CleanupStopsAt(members: seq<string>, markers: set<string>, fault: Option<CleanupFault>, i: nat,
                       geo0: map<string, Position>, meta0: map<string, Metadata>, gone: set<string>,
                       geo: map<string, Position>, meta: map<string, Metadata>)
    requires i < |members| && i <= Examined(members, markers, fault) && fault != Some(RangeFails)
    requires FaultAt(fault, i) == Some(ExistsCall) || (members[i] !in markers && FaultAt(fault, i).Some?)
    requires gone == ExpiredPrefix(members, markers, i) && meta == meta0 - gone
    requires FaultAt(fault, i) == Some(DeleteCall) ==> geo == geo0 - (gone + {members[i]})
    requires FaultAt(fault, i) != Some(DeleteCall) ==> geo == geo0 - gone
    ensures CleanupResult(members, markers, fault, geo0, meta0, geo, meta, 0)
  {
    assert Examined(members, markers, fault) == i;
    if FaultAt(fault, i) != Some(DeleteCall) {
      assert gone + HalfRemoved(members, markers, fault) == gone;
    }
  }

  /** A cleanup that examined every member without reaching its fault. */
  lemma CleanupEnds(members: seq<string>, markers: set<string>, fault: Option<CleanupFault>,
                    geo0: map<string, Position>, meta0: map<string, Metadata>, gone: set<string>,
                    geo: map<string, Position>, meta: map<string, Metadata>, removed: nat)
    requires Enumerates(members, geo0)
    requires |members| <= Examined(members, markers, fault) && fault != Some(RangeFails)
    requires gone == ExpiredPrefix(members, markers, |members|)
    requires geo == geo0 - gone && meta == meta0 - gone && removed == |gone|
    ensures CleanupResult(members, markers, fault, geo0, meta0, geo, meta, removed)
  {
    assert !Reaches(members, markers, fault);
    assert gone + HalfRemoved(members, markers, fault) == gone;
    ExpiredPrefixAll(members, markers, geo0);
  }

  /**
   * What a cleanup removes is expired: the members it examined in full that
   * had no marker, plus at most the one whose DEL raised. Without a fault
   * reached that is every expired member.
   */
  lemma CleanupRemovesOnlyExpired(members: seq<string>, geo: map<string, Position>, markers: set<string>,
                                  fault: Option<CleanupFault>)
    requires Enumerates(members, geo)
    ensures ExpiredPrefix(members, markers, Examined(members, markers, fault))
              + HalfRemoved(members, markers, fault) <= ExpiredIn(geo, markers)
    ensures !Reaches(members, markers, fault) ==>
              && ExpiredPrefix(members, markers, Examined(members, markers, fault)) == ExpiredIn(geo, markers)
              && HalfRemoved(members, markers, fault) == {}
  {
    ExpiredPrefixHolds(members, markers, Examined(members, markers, fault));
    forall i | 0 <= i < |members| ensures members[i] in geo {
      assert Listed(members, members[i]);
    }
    if !Reaches(members, markers, fault) {
      ExpiredPrefixAll(members, markers, geo);
    }
  }

  /** The three Redis tables the service reads and writes. */
  class TelemetryService {
    var geo: map<string, Position>
    var markers: set<string>
    var meta: map<string, Metadata>

    /** A service over an empty store. */
    constructor ()
      ensures geo == map[] && markers == {} && meta == map[]
    {
      geo := map[];
      markers := {};
      meta := map[];
    }

    /** Geo members whose marker has lapsed: what a cleanup removes. */
    function Expired(): set<string>
      reads this
    {
      ExpiredIn(geo, markers)
    }

    /**
     * `store_location_ping`. Latitude is checked, then longitude, both bounds
     * inclusive, before anything is written. Then the geo entry, the marker and
     * the metadata hash are written in that order; `fault` names the Redis call
     * that raises, if one does, and the writes issued before it stay in place.
     * Any such failure surfaces as CacheError. `stored` reports whether the
     * device was new to the geo set; re-storing overwrites, last write wins.
     */
    method StorePing(deviceId: string, latitude: real, longitude: real, timestamp: string,
                     accuracy: real, choice: nat, fault: Option<StoreFault>)
      returns (r: Result<PingReceipt, StoreError>)
      modifies this`geo, this`markers, this`meta
      ensures !LatitudeInRange(latitude) ==> r == Err(ValueError(ServerErrors.InvalidLatitude(latitude)))
      ensures (LatitudeInRange(latitude) && !LongitudeInRange(longitude))
                ==> r == Err(ValueError(ServerErrors.InvalidLongitude(longitude)))
      ensures (r.Err? && r.error.ValueError?)
                ==> geo == old(geo) && markers == old(markers) && meta == old(meta)
      ensures (LatitudeInRange(latitude) && LongitudeInRange(longitude)) ==>
                && geo == (if Completed(fault, GeoAdd)
                           then old(geo)[deviceId := Position(longitude, latitude)] else old(geo))
                && markers == (if Completed(fault, SetMarker)
                               then old(markers) + {deviceId} else old(markers))
                && meta == (if Completed(fault, SetMeta)
                            then old(meta)[deviceId := Metadata(accuracy, timestamp, latitude, longitude)]
                            else old(meta))
                && (fault.Some? ==> r == Err(CacheError(CacheErrorPrefix + fault.value.text)))
      ensures r.Ok? <==> LatitudeInRange(latitude) && LongitudeInRange(longitude) && fault.None?
      ensures r.Ok? ==> && r.value.status == "success"
                        && (r.value.stored <==> deviceId !in old(geo))
                        && 30 <= r.value.nextPingInterval <= 60
      ensures r.Ok? ==> LocationPing(deviceId, false)
                          == Some(PingRecord(deviceId, latitude, longitude, accuracy, timestamp))
      ensures r.Ok? ==> forall d :: d != deviceId ==> LocationPing(d, false) == old(LocationPing(d, false))
    {
      if !(-90.0 <= latitude <= 90.0) {
        return Err(ValueError(ServerErrors.InvalidLatitude(latitude)));
      }
      if !(-180.0 <= longitude <= 180.0) {
        return Err(ValueError(ServerErrors.InvalidLongitude(longitude)));
      }
      if fault.Some? && fault.value.step == GeoAdd {
        return Err(CacheError(CacheErrorPrefix + fault.value.text));
      }
      var added := deviceId !in geo;
      geo := geo[deviceId := Position(longitude, latitude)];
      if fault.Some? && fault.value.step == SetMarker {
        return Err(CacheError(CacheErrorPrefix + fault.value.text));
      }
      markers := markers + {deviceId};
      if fault.Some? && fault.value.step == SetMeta {
        return Err(CacheError(CacheErrorPrefix + fault.value.text));
      }
      meta := meta[deviceId := Metadata(accuracy, timestamp, latitude, longitude)];
      if fault.Some? {
        return Err(CacheError(CacheErrorPrefix + fault.value.text));
      }
      return Ok(PingReceipt("success", added, NextPingInterval(choice)));
    }

    /**
     * `get_location_ping`: None unless the marker, the geo entry and the
     * metadata all exist; the marker alone decides for an expired device.
     * The position is the geo set's, the accuracy and timestamp the hash's.
     * `fails` stands for a Redis call raising, which also yields None.
     */
    function LocationPing(deviceId: string, fails: bool): (r: Option<PingRecord>)
      reads this
      ensures deviceId !in markers ==> r == None
      ensures r.Some? <==> !fails && deviceId in markers && deviceId in geo && deviceId in meta
      ensures r.Some? ==> && r.value.deviceId == deviceId
                          && r.value.latitude == geo[deviceId].latitude
                          && r.value.longitude == geo[deviceId].longitude
                          && r.value.accuracy == meta[deviceId].accuracy
                          && r.value.timestamp == meta[deviceId].timestamp
    {
      if fails || deviceId !in markers || deviceId !in geo || deviceId !in meta then None
      else
        var p, m := geo[deviceId], meta[deviceId];
        Some(PingRecord(deviceId, p.latitude, p.longitude, m.accuracy, m.timestamp))
    }

    /**
     * `cleanup_expired_pings`: walks `members`, what the initial ZRANGE
     * returned, in order; for each member without a marker it removes the
     * member from the geo set (ZREM), then drops its metadata hash (DEL) and
     * counts it. Markers and live devices are untouched, so a second run
     * finds nothing. `fault` names the Redis call that raises, if one does:
     * the ZRANGE, or one of the calls made for the `k`-th member. Then the
     * removals already made stay, including a ZREM whose DEL raised, and the
     * count reported is 0.
     */
    method CleanupExpiredPings(members: seq<string>, fault: Option<CleanupFault>) returns (removed: nat)
      requires Enumerates(members, geo)
      modifies this`geo, this`meta
      ensures CleanupResult(members, markers, fault, old(geo), old(meta), geo, meta, removed)
    {
      if fault == Some(RangeFails) {
        CleanupRangeFails(members, markers, geo, meta);
        return 0;
      }
      removed := 0;
      ghost var gone: set<string> := {};
      var i := 0;
      var stopped := false;
      while i < |members|
        invariant !stopped
        invariant i <= |members| && i <= Examined(members, markers, fault)
        invariant gone == ExpiredPrefix(members, markers, i)
        invariant geo == old(geo) - gone && meta == old(meta) - gone
        invariant removed == |gone|
      {
        var here := FaultAt(fault, i);
        var d := members[i];
        if here == Some(ExistsCall) || (d !in markers && here == Some(ZremCall)) {
          CleanupStopsAt(members, markers, fault, i, old(geo), old(meta), gone, geo, meta);
          removed, stopped := 0, true;
          break;
        }
        ExpiredPrefixNext(members, markers, old(geo), i);
        if d !in markers {
          MinusOneMore(old(geo), gone, d);
          geo := geo - {d};
          if here == Some(DeleteCall) {
            CleanupStopsAt(members, markers, fault, i, old(geo), old(meta), gone, geo, meta);
            removed, stopped := 0, true;
            break;
          }
          MinusOneMore(old(meta), gone, d);
          meta := meta - {d};
          gone := gone + {d};
          removed := removed + 1;
        }
        CleanupPasses(members, markers, fault, i);
        assert gone == ExpiredPrefix(members, markers, i + 1);
        assert geo == old(geo) - gone;
        i := i + 1;
      }
      if !stopped {
        CleanupEnds(members, markers, fault, old(geo), old(meta), gone, geo, meta, removed);
      }
    }

    /**
     * `get_nearby_devices`: the radius search is an oracle whose results are
     * `hits`; every hit whose device still has a marker is returned, in the
     * search's order. `fails` stands for a Redis call raising, which yields
     * the empty list.
     */
    method GetNearbyDevices(hits: seq<RadiusHit>, fails: bool) returns (nearby: seq<NearbyDevice>)
      ensures fails ==> nearby == []
      ensures !fails ==> nearby == LiveHits(hits, markers)
    {
      if fails {
        return [];
      }
      nearby := [];
      var i := 0;
      while i < |hits|
        invariant 0 <= i <= |hits|
        invariant nearby == LiveHits(hits[..i], markers)
      {
        assert hits[..i + 1][..i] == hits[..i];
        if hits[i].deviceId in markers {
          nearby := nearby + [AsNearby(hits[i])];
        }
        i := i + 1;
      }
      assert hits[..i] == hits;
    }

    /** Redis's own clock: the marker of `deviceId` reaches its TTL and disappears. */
    method LapseMarker(deviceId: string)
      modifies this`markers
      ensures markers == old(markers) - {deviceId}
    {
      markers := markers - {deviceId};
    }

    /** Redis's own clock: the metadata hash of `deviceId` reaches its TTL and disappears. */
    method LapseMetadata(deviceId: string)
      modifies this`meta
      ensures meta == old(meta) - {deviceId}
    {
      meta := meta - {deviceId};
    }
  }

  /**
   * A stored ping is readable until its marker lapses; after that it is
   * invisible even though its geo entry remains, a cleanup removes it, and a
   * second cleanup removes nothing.
   */
  method ExpiryScenario()
  {
    var service := new TelemetryService();
    var r := service.StorePing("device-1", 37.5, -122.25, "2024-01-15T10:30:00Z", 10.5, 0, None);
    assert r.Ok? && r.value.stored;
    assert service.LocationPing("device-1", false).Some?;
    service.LapseMarker("device-1");
    assert service.LocationPing("device-1", false) == None;
    assert "device-1" in service.geo;
    assert service.Expired() == {"device-1"};
    var n := service.CleanupExpiredPings(["device-1"], None);
    assert n == 1;
    var again := service.CleanupExpiredPings([], None);
    assert again == 0;
  }

  /**
   * A store holding two devices whose markers have both lapsed, and a DEL
   * that raises for the second: the first is gone from the geo set and its
   * hash dropped, the second is gone from the geo set but keeps its hash,
   * and the count reported is 0.
   */
  method HalfCleanupScenario()
  {
    var service := new TelemetryService();
    service.geo := map["a" := Position(2.0, 1.0), "b" := Position(4.0, 3.0)];
    service.meta := map["a" := Metadata(5.0, "t1", 1.0, 2.0), "b" := Metadata(5.0, "t2", 3.0, 4.0)];
    var fault := Some(MemberFails(1, DeleteCall));
    assert Examined(["a", "b"], {}, fault) == 1 && HalfRemoved(["a", "b"], {}, fault) == {"b"};
    assert ExpiredPrefix(["a", "b"], {}, 1) == {"a"};
    var n := service.CleanupExpiredPings(["a", "b"], fault);
    assert n == 0;
    assert "a" !in service.geo && "a" !in service.meta;
    assert "b" !in service.geo && "b" in service.meta;
  }
}
