/** The bicycle and station registry of the bike-share system (the
    bicycle-registration contract): docking stations whose free spots and
    docked bicycles always add up to their capacity, and bicycles with an
    owner, a status, a location, an hourly rate and running statistics. */
module Registry {
  import opened Common

  type BicycleId = string
  type StationId = string

  datatype Error =
    | NotAuthorized | BicycleExists | BicycleNotFound | StationExists | StationNotFound | InvalidStatus
  {
    /** The numeric code the contract returns. */
    function Code(): (c: nat)
      ensures 100 <= c <= 105
    {
      match this
      case NotAuthorized => 100
      case BicycleExists => 101
      case BicycleNotFound => 102
      case StationExists => 103
      case StationNotFound => 104
      case InvalidStatus => 105
    }
  }

  lemma CodesDistinct(a: Error, b: Error)
    ensures a.Code() == b.Code() ==> a == b
  {
  }

  datatype BicycleStatus = Available | InUse | Maintenance | Retired

  function BicycleStatusName(s: BicycleStatus): string {
    match s
    case Available => "available"
    case InUse => "in-use"
    case Maintenance => "maintenance"
    case Retired => "retired"
  }

  /** Accepts exactly the four bicycle status names. */
  function ParseBicycleStatus(name: string): (r: Option<BicycleStatus>)
    ensures r.Some? <==> name in {"available", "in-use", "maintenance", "retired"}
    ensures r.Some? ==> BicycleStatusName(r.value) == name
  {
    if name == "available" then Some(Available)
    else if name == "in-use" then Some(InUse)
    else if name == "maintenance" then Some(Maintenance)
    else if name == "retired" then Some(Retired)
    else None
  }

  lemma BicycleStatusRoundTrip(s: BicycleStatus)
    ensures ParseBicycleStatus(BicycleStatusName(s)) == Some(s)
  {
  }

  datatype Bicycle = Bicycle(
    owner: Principal,
    status: BicycleStatus,
    bicycleType: string,
    model: string,
    locationLatitude: int,
    locationLongitude: int,
    hourlyRate: nat,
    registrationDate: nat,
    totalRides: nat,
    totalDistance: nat,
    lastMaintenanceDate: nat,
    totalEarnings: nat)

  /** The counters are integers: nothing stops a station from being filled
      past its capacity or emptied below zero. */
  datatype Station = Station(
    name: string,
    locationLatitude: int,
    locationLongitude: int,
    capacity: nat,
    availableSpots: int,
    bicyclesCount: int)
  {
    /** Free spots and docked bicycles add up to the capacity. */
    predicate Balanced() {
      availableSpots + bicyclesCount == capacity
    }

    /** One more bicycle and one fewer free spot. */
    function Docked(): (r: Station)
      ensures r.bicyclesCount == bicyclesCount + 1
      ensures r.availableSpots + r.bicyclesCount == availableSpots + bicyclesCount
      ensures r.capacity == capacity && r.name == name
      ensures r.(bicyclesCount := bicyclesCount, availableSpots := availableSpots) == this
      ensures Balanced() ==> r.Balanced()
    {
      this.(bicyclesCount := bicyclesCount + 1, availableSpots := availableSpots - 1)
    }

    /** One fewer bicycle and one more free spot. */
    function Undocked(): (r: Station)
      ensures r.bicyclesCount == bicyclesCount - 1
      ensures r.availableSpots + r.bicyclesCount == availableSpots + bicyclesCount
      ensures r.capacity == capacity && r.name == name
      ensures r.(bicyclesCount := bicyclesCount, availableSpots := availableSpots) == this
      ensures Balanced() ==> r.Balanced()
    {
      this.(bicyclesCount := bicyclesCount - 1, availableSpots := availableSpots + 1)
    }
  }

  /** Removing a bicycle undoes registering one at the same station. */
  lemma UndockUndoesDock(s: Station)
    ensures s.Docked().Undocked() == s
    ensures s.Undocked().Docked() == s
  {
  }

  /** The contract owner or the bicycle's own owner. */
  predicate MayManage(caller: Principal, contractOwner: Principal, b: Bicycle) {
    caller == contractOwner || caller == b.owner
  }

  class BicycleRegistry {
    var contractOwner: Principal
    var bicycles: map<BicycleId, Bicycle>
    var stations: map<StationId, Station>

    /** Every station's free spots and docked bicycles add up to its capacity. */
    ghost predicate Valid()
      reads this
    {
      forall id | id in stations :: stations[id].Balanced()
    }

    constructor (owner: Principal)
      ensures Valid()
      ensures contractOwner == owner && bicycles == map[] && stations == map[]
    {
      contractOwner := owner;
      bicycles, stations := map[], map[];
    }

    method SetContractOwner(caller: Principal, newOwner: Principal) returns (r: Outcome<Error>)
      requires Valid()
      modifies this
      ensures Valid()
      ensures r == (if caller == old(contractOwner) then Pass else Fail(NotAuthorized))
      ensures contractOwner == (if r.Pass? then newOwner else old(contractOwner))
      ensures bicycles == old(bicycles) && stations == old(stations)
    {
      if caller != contractOwner {
        return Fail(NotAuthorized);
      }
      contractOwner := newOwner;
      return Pass;
    }

    /** Owner only; a new station is empty, with every spot free. */
    method RegisterStation(caller: Principal, stationId: StationId, name: string, latitude: int,
                           longitude: int, capacity: nat)
      returns (r: Result<StationId, Error>)
      requires Valid()
      modifies this
      ensures Valid()
      ensures caller != old(contractOwner) ==> r == Err(NotAuthorized)
      ensures caller == old(contractOwner) && stationId in old(stations) ==> r == Err(StationExists)
      ensures r.Ok? <==> caller == old(contractOwner) && stationId !in old(stations)
      ensures r.Err? ==> unchanged(this)
      ensures r.Ok? ==>
        && r.value == stationId
        && stations == old(stations)[stationId := Station(name, latitude, longitude, capacity, capacity, 0)]
        && bicycles == old(bicycles) && contractOwner == old(contractOwner)
    {
      if caller != contractOwner {
        return Err(NotAuthorized);
      }
      if stationId in stations {
        return Err(StationExists);
      }
      stations := stations[stationId := Station(name, latitude, longitude, capacity, capacity, 0)];
      return Ok(stationId);
    }

    /** Owner only; docks a new bicycle, owned by the caller, at an existing
        station. */
    method RegisterBicycle(caller: Principal, now: nat, bicycleId: BicycleId, bicycleType: string, model: string,
                           latitude: int, longitude: int, hourlyRate: nat, stationId: StationId)
      returns (r: Result<BicycleId, Error>)
      requires Valid()
      modifies this
      ensures Valid()
      ensures caller != old(contractOwner) ==> r == Err(NotAuthorized)
      ensures caller == old(contractOwner) && bicycleId in old(bicycles) ==> r == Err(BicycleExists)
      ensures caller == old(contractOwner) && bicycleId !in old(bicycles) && stationId !in old(stations) ==>
        r == Err(StationNotFound)
      ensures r.Ok? <==> caller == old(contractOwner) && bicycleId !in old(bicycles) && stationId in old(stations)
      ensures r.Err? ==> unchanged(this)
      ensures r.Ok? ==>
        && r.value == bicycleId
        && stations == old(stations)[stationId := old(stations)[stationId].Docked()]
        && bicycles == old(bicycles)[bicycleId := Bicycle(caller, Available, bicycleType, model, latitude,
                                                          longitude, hourlyRate, now, 0, 0, now, 0)]
        && contractOwner == old(contractOwner)
      ensures r.Ok? ==> IsBicycleAvailable(bicycleId)
      ensures r.Ok? ==> GetBicycle(bicycleId).Some? && GetBicycleHourlyRate(bicycleId) == Ok(hourlyRate)
    {
      if caller != contractOwner {
        return Err(NotAuthorized);
      }
      if bicycleId in bicycles {
        return Err(BicycleExists);
      }
      if stationId !in stations {
        return Err(StationNotFound);
      }
      stations := stations[stationId := stations[stationId].Docked()];
      bicycles := bicycles[bicycleId := Bicycle(caller, Available, bicycleType, model, latitude, longitude,
                                                hourlyRate, now, 0, 0, now, 0)];
      return Ok(bicycleId);
    }

    /** The contract owner or the bicycle's owner; existence is checked before
        authorization. */
    method UpdateBicycleStatus(caller: Principal, bicycleId: BicycleId, newStatus: string)
      returns (r: Result<BicycleStatus, Error>)
      requires Valid()
      modifies this
      ensures Valid()
      ensures bicycleId !in old(bicycles) ==> r == Err(BicycleNotFound)
      ensures bicycleId in old(bicycles) && !MayManage(caller, old(contractOwner), old(bicycles)[bicycleId]) ==>
        r == Err(NotAuthorized)
      ensures (bicycleId in old(bicycles) && MayManage(caller, old(contractOwner), old(bicycles)[bicycleId]) &&
               ParseBicycleStatus(newStatus).None?) ==> r == Err(InvalidStatus)
      ensures r.Ok? <==>
        bicycleId in old(bicycles) && MayManage(caller, old(contractOwner), old(bicycles)[bicycleId]) &&
        ParseBicycleStatus(newStatus).Some?
      ensures r.Err? ==> unchanged(this)
      ensures r.Ok? ==>
        && r.value == ParseBicycleStatus(newStatus).value
        && bicycles == old(bicycles)[bicycleId := old(bicycles)[bicycleId].(status := r.value)]
        && stations == old(stations) && contractOwner == old(contractOwner)
      ensures r.Ok? ==> (IsBicycleAvailable(bicycleId) <==> newStatus == "available")
    {
      if bicycleId !in bicycles {
        return Err(BicycleNotFound);
      }
      var b := bicycles[bicycleId];
      if caller != contractOwner && caller != b.owner {
        return Err(NotAuthorized);
      }
      var parsed := ParseBicycleStatus(newStatus);
      if parsed.None? {
        return Err(InvalidStatus);
      }
      bicycles := bicycles[bicycleId := b.(status := parsed.value)];
      return Ok(parsed.value);
    }

    /** The contract owner or the bicycle's owner. */
    method UpdateBicycleLocation(caller: Principal, bicycleId: BicycleId, latitude: int, longitude: int)
      returns (r: Outcome<Error>)
      requires Valid()
      modifies this
      ensures Valid()
      ensures bicycleId !in old(bicycles) ==> r == Fail(BicycleNotFound)
      ensures bicycleId in old(bicycles) && !MayManage(caller, old(contractOwner), old(bicycles)[bicycleId]) ==>
        r == Fail(NotAuthorized)
      ensures r.Pass? <==> bicycleId in old(bicycles) && MayManage(caller, old(contractOwner), old(bicycles)[bicycleId])
      ensures r.Fail? ==> unchanged(this)
      ensures r.Pass? ==>
        && bicycles == old(bicycles)[bicycleId := old(bicycles)[bicycleId].(locationLatitude := latitude,
                                                                           locationLongitude := longitude)]
        && stations == old(stations) && contractOwner == old(contractOwner)
    {
      if bicycleId !in bicycles {
        return Fail(BicycleNotFound);
      }
      var b := bicycles[bicycleId];
      if caller != contractOwner && caller != b.owner {
        return Fail(NotAuthorized);
      }
      bicycles := bicycles[bicycleId := b.(locationLatitude := latitude, locationLongitude := longitude)];
      return Pass;
    }

    /** Owner only; adds to the running totals. */
    method UpdateBicycleStatistics(caller: Principal, bicycleId: BicycleId, ridesToAdd: nat, distanceToAdd: nat,
                                   earningsToAdd: nat)
      returns (r: Outcome<Error>)
      requires Valid()
      modifies this
      ensures Valid()
      ensures caller != old(contractOwner) ==> r == Fail(NotAuthorized)
      ensures caller == old(contractOwner) && bicycleId !in old(bicycles) ==> r == Fail(BicycleNotFound)
      ensures r.Pass? <==> caller == old(contractOwner) && bicycleId in old(bicycles)
      ensures r.Fail? ==> unchanged(this)
      ensures r.Pass? ==>
        var b := old(bicycles)[bicycleId];
        && bicycles == old(bicycles)[bicycleId := b.(totalRides := b.totalRides + ridesToAdd,
                                                     totalDistance := b.totalDistance + distanceToAdd,
                                                     totalEarnings := b.totalEarnings + earningsToAdd)]
        && stations == old(stations) && contractOwner == old(contractOwner)
    {
      if caller != contractOwner {
        return Fail(NotAuthorized);
      }
      if bicycleId !in bicycles {
        return Fail(BicycleNotFound);
      }
      var b := bicycles[bicycleId];
      bicycles := bicycles[bicycleId := b.(totalRides := b.totalRides + ridesToAdd,
                                           totalDistance := b.totalDistance + distanceToAdd,
                                           totalEarnings := b.totalEarnings + earningsToAdd)];
      return Pass;
    }

    /** The contract owner or the bicycle's owner; stamps the maintenance
        date and makes the bicycle available again. Returns the block. */
    method UpdateBicycleMaintenance(caller: Principal, now: nat, bicycleId: BicycleId)
      returns (r: Result<nat, Error>)
      requires Valid()
      modifies this
      ensures Valid()
      ensures bicycleId !in old(bicycles) ==> r == Err(BicycleNotFound)
      ensures bicycleId in old(bicycles) && !MayManage(caller, old(contractOwner), old(bicycles)[bicycleId]) ==>
        r == Err(NotAuthorized)
      ensures r.Ok? <==> bicycleId in old(bicycles) && MayManage(caller, old(contractOwner), old(bicycles)[bicycleId])
      ensures r.Err? ==> unchanged(this)
      ensures r.Ok? ==>
        && r.value == now
        && bicycles == old(bicycles)[bicycleId := old(bicycles)[bicycleId].(lastMaintenanceDate := now,
                                                                           status := Available)]
        && stations == old(stations) && contractOwner == old(contractOwner)
      ensures r.Ok? ==> IsBicycleAvailable(bicycleId)
    {
      if bicycleId !in bicycles {
        return Err(BicycleNotFound);
      }
      var b := bicycles[bicycleId];
      if caller != contractOwner && caller != b.owner {
        return Err(NotAuthorized);
      }
      bicycles := bicycles[bicycleId := b.(lastMaintenanceDate := now, status := Available)];
      return Ok(now);
    }

    /** Owner only; deletes the bicycle and frees one spot at the named
        station. */
    method RemoveBicycle(caller: Principal, bicycleId: BicycleId, stationId: StationId) returns (r: Outcome<Error>)
      requires Valid()
      modifies this
      ensures Valid()
      ensures caller != old(contractOwner) ==> r == Fail(NotAuthorized)
      ensures caller == old(contractOwner) && bicycleId !in old(bicycles) ==> r == Fail(BicycleNotFound)
      ensures caller == old(contractOwner) && bicycleId in old(bicycles) && stationId !in old(stations) ==>
        r == Fail(StationNotFound)
      ensures r.Pass? <==> caller == old(contractOwner) && bicycleId in old(bicycles) && stationId in old(stations)
      ensures r.Fail? ==> unchanged(this)
      ensures r.Pass? ==>
        && bicycles == old(bicycles) - {bicycleId}
        && stations == old(stations)[stationId := old(stations)[stationId].Undocked()]
        && contractOwner == old(contractOwner)
      ensures r.Pass? ==> GetBicycle(bicycleId).None? && !IsBicycleAvailable(bicycleId)
      ensures r.Pass? ==> GetBicycleHourlyRate(bicycleId) == Err(BicycleNotFound)
    {
      if caller != contractOwner {
        return Fail(NotAuthorized);
      }
      if bicycleId !in bicycles {
        return Fail(BicycleNotFound);
      }
      if stationId !in stations {
        return Fail(StationNotFound);
      }
      stations := stations[stationId := stations[stationId].Undocked()];
      bicycles := bicycles - {bicycleId};
      return Pass;
    }

    // -------------------------------------------------------------------------
    // Read-only queries

    /** A plain lookup; what it returns after each operation is stated by
        that operation's contract. */
    function GetBicycle(bicycleId: BicycleId): Option<Bicycle>
      reads this
    {
      if bicycleId in bicycles then Some(bicycles[bicycleId]) else None
    }

    /** A stored station is always balanced. */
    function GetStation(stationId: StationId): (r: Option<Station>)
      requires Valid()
      reads this
      ensures r.Some? <==> stationId in stations
      ensures r.Some? ==> r.value.Balanced()
    {
      if stationId in stations then Some(stations[stationId]) else None
    }

    /** False for an unknown bicycle. */
    function IsBicycleAvailable(bicycleId: BicycleId): (r: bool)
      reads this
      ensures r ==> bicycleId in bicycles
    {
      if bicycleId in bicycles then bicycles[bicycleId].status == Available else false
    }

    /** A plain lookup, like GetBicycle. */
    function GetBicycleHourlyRate(bicycleId: BicycleId): Result<nat, Error>
      reads this
    {
      if bicycleId in bicycles then Ok(bicycles[bicycleId].hourlyRate) else Err(BicycleNotFound)
    }
  }
}
