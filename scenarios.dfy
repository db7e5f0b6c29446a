/** Client walk-throughs: what a caller can conclude from the ledgers'
    contracts alone, for a few representative sequences of operations. */
module Scenarios {
  import opened Common
  import Maintenance
  import Users
  import Registry

  /** A station of capacity 5 gains and then loses one bicycle. */
  method StationCapacityScenario(owner: Principal, now: nat) {
    var reg := new Registry.BicycleRegistry(owner);
    var s := reg.RegisterStation(owner, "S1", "Central", 0, 0, 5);
    assert s.Ok?;
    assert reg.stations["S1"].availableSpots == 5 && reg.stations["S1"].bicyclesCount == 0;

    var b := reg.RegisterBicycle(owner, now, "B1", "city", "m1", 0, 0, 10, "S1");
    assert b.Ok?;
    assert reg.stations["S1"].availableSpots == 4 && reg.stations["S1"].bicyclesCount == 1;
    assert reg.bicycles["B1"].status == Registry.Available;

    var again := reg.RegisterBicycle(owner, now, "B1", "city", "m1", 0, 0, 10, "S1");
    assert again == Err(Registry.BicycleExists);

    var rm := reg.RemoveBicycle(owner, "B1", "S1");
    assert rm.Pass?;
    assert reg.stations["S1"].availableSpots == 5 && reg.stations["S1"].bicyclesCount == 0;
    assert reg.GetBicycle("B1").None?;
    var rate := reg.GetBicycleHourlyRate("B1");
    assert rate == Err(Registry.BicycleNotFound);
  }

  /** Deposits, a refused withdrawal and an owner's charge. */
  method DepositScenario(owner: Principal, rider: Principal, now: nat)
    requires owner != rider
  {
    var ledger := new Users.UserLedger(owner);
    var reg := ledger.RegisterUser(rider, now, "rider", "e", "p");
    assert reg.Ok?;
    assert ledger.users[rider].depositBalance == 0 && ledger.users[rider].reputationScore == 70;

    var d := ledger.AddDeposit(rider, now, 100);
    assert d == Ok(100);
    var w := ledger.WithdrawDeposit(rider, now, 150);
    assert w == Err(Users.InsufficientBalance);
    assert ledger.users[rider].depositBalance == 100;

    var refused := ledger.ChargeUser(rider, now, rider, 40);
    assert refused == Err(Users.NotAuthorized);
    var c := ledger.ChargeUser(owner, now, rider, 40);
    assert c == Ok(60);
    assert ledger.users[rider].depositBalance == 60 && ledger.users[rider].totalSpent == 40;
  }

  /** A verified document expires strictly after its expiry block. */
  method DocumentScenario(owner: Principal, rider: Principal) {
    var ledger := new Users.UserLedger(owner);
    var reg := ledger.RegisterUser(rider, 1000, "rider", "e", "p");
    var sub := ledger.SubmitVerificationDocument(rider, 1000, "id-card", "hash");
    assert sub.Pass?;
    assert ledger.GetDocumentVerificationStatus(rider, "id-card") == Ok(Users.Pending);

    var v := ledger.VerifyDocument(owner, 1000, rider, "id-card", "verified", 10000);
    assert v == Ok(Users.Verified);
    assert ledger.documents[(rider, "id-card")].verificationExpiry == 11000;
    assert !ledger.IsDocumentVerificationExpired(rider, "id-card", 5000);
    assert !ledger.IsDocumentVerificationExpired(rider, "id-card", 11000);
    assert ledger.IsDocumentVerificationExpired(rider, "id-card", 12000);
  }

  /** Renting needs a payment method and a verification level of 1. */
  method EligibilityScenario(owner: Principal, rider: Principal, now: nat) {
    var ledger := new Users.UserLedger(owner);
    var reg := ledger.RegisterUser(rider, now, "rider", "e", "p");
    assert !ledger.CanRentBike(rider);
    var pm := ledger.AddPaymentMethod(rider, now, "card", "tok", "addr");
    var lvl := ledger.UpdateUserVerificationLevel(owner, now, rider, 1);
    assert lvl.Ok?;
    assert ledger.CanRentBike(rider);
    var bad := ledger.UpdateUserVerificationLevel(owner, now, rider, 4);
    assert bad == Err(Users.InvalidVerificationLevel);
    var rm := ledger.RemovePaymentMethod(rider, now);
    assert rm.Pass?;
    assert !ledger.CanRentBike(rider);
  }

  /** A fresh schedule is not due, and flagging it early is refused. */
  method ScheduleScenario(owner: Principal) {
    var ledger := new Maintenance.MaintenanceLedger(owner);
    var init := ledger.InitializeMaintenanceSchedule(owner, 1000, "B1", 50, 500, 30);
    assert init.Ok?;
    assert ledger.schedules["B1"].nextMaintenanceDue == 5320;
    assert !ledger.IsMaintenanceDue("B1");

    var early := ledger.FlagOverdueMaintenance(owner, 2000, "B1");
    assert early == Fail(Maintenance.NotAuthorized);
  }

  /** A critical report forces a schedule overdue; maintenance resets it. */
  method CriticalIssueScenario(owner: Principal, mechanic: Principal) {
    var ledger := new Maintenance.MaintenanceLedger(owner);
    var init := ledger.InitializeMaintenanceSchedule(owner, 1000, "B1", 50, 500, 30);
    assert init.Ok?;

    var rep := ledger.ReportIssue(mechanic, 1001, "B1", "I1", "brake", "worn pads", "critical");
    assert rep.Ok?;
    assert ledger.IsMaintenanceDue("B1");
    var open := ledger.HasCriticalIssues("B1");
    assert open;

    var rec := ledger.RecordMaintenance(owner, 1002, "B1", "R1", "repair", "pads", "", 20, 30);
    assert rec.Ok?;
    assert !ledger.IsMaintenanceDue("B1");
  }

  /** An unknown severity is refused before anything is stored. */
  method SeverityScenario(owner: Principal, mechanic: Principal) {
    var ledger := new Maintenance.MaintenanceLedger(owner);
    var init := ledger.InitializeMaintenanceSchedule(owner, 1000, "B1", 50, 500, 30);
    assert init.Ok?;
    var bad := ledger.ReportIssue(mechanic, 1001, "B1", "I2", "brake", "?", "urgent");
    assert bad == Err(Maintenance.InvalidSeverity);
    assert "I2" !in ledger.issues;
  }
}
