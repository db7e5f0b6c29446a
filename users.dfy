/** The user account ledger of the bike-share system (the user-verification
    contract): self-service user records keyed by the caller, one payment
    method per user, a deposit balance, verification documents keyed by
    (user, document type), and the rental eligibility predicate. */
module Users {
  import opened Common

  /** Verification levels run from 0 to 3. */
  const MAX_VERIFICATION_LEVEL: nat := 3
  const MAX_REPUTATION: nat := 100
  const INITIAL_REPUTATION: nat := 70
  /** Renting needs at least this verification level and reputation. */
  const MIN_RENT_LEVEL: nat := 1
  const MIN_RENT_REPUTATION: nat := 50

  datatype Error =
    | NotAuthorized | UserExists | UserNotFound | PaymentMethodExists | PaymentMethodNotFound
    | DocumentExists | DocumentNotFound | InvalidVerificationStatus | InvalidVerificationLevel
    | InsufficientBalance | InvalidScore
  {
    /** The numeric code the contract returns. */
    function Code(): (c: nat)
      ensures 100 <= c <= 110
    {
      match this
      case NotAuthorized => 100
      case UserExists => 101
      case UserNotFound => 102
      case PaymentMethodExists => 103
      case PaymentMethodNotFound => 104
      case DocumentExists => 105
      case DocumentNotFound => 106
      case InvalidVerificationStatus => 107
      case InvalidVerificationLevel => 108
      case InsufficientBalance => 109
      case InvalidScore => 110
    }
  }

  lemma CodesDistinct(a: Error, b: Error)
    ensures a.Code() == b.Code() ==> a == b
  {
  }

  datatype User = User(
    username: string,
    emailHash: string,
    phoneHash: string,
    verificationLevel: nat,
    registrationDate: nat,
    lastUpdated: nat,
    isActive: bool,
    hasPaymentMethod: bool,
    depositBalance: nat,
    reputationScore: nat,
    totalRides: nat,
    totalRideMinutes: nat,
    totalSpent: nat)

  datatype PaymentMethod = PaymentMethod(
    paymentProvider: string,
    paymentTokenHash: string,
    isDefault: bool,
    addedAt: nat,
    lastUsed: nat,
    billingAddressHash: string)

  datatype DocumentStatus = Pending | Verified | Rejected

  function DocumentStatusName(s: DocumentStatus): string {
    match s
    case Pending => "pending"
    case Verified => "verified"
    case Rejected => "rejected"
  }

  /** The verdicts an owner may give a document: "verified" or "rejected",
      never "pending". */
  function ParseVerdict(name: string): (r: Option<DocumentStatus>)
    ensures r.Some? <==> name in {"verified", "rejected"}
    ensures r.Some? ==> r.value != Pending && DocumentStatusName(r.value) == name
  {
    if name == "verified" then Some(Verified)
    else if name == "rejected" then Some(Rejected)
    else None
  }

  datatype Document = Document(
    documentHash: string,
    status: DocumentStatus,
    submittedAt: nat,
    verifiedAt: nat,
    verificationExpiry: nat)

  /** The four conditions for renting a bike. */
  predicate Eligible(u: User) {
    u.isActive && u.hasPaymentMethod && u.verificationLevel >= MIN_RENT_LEVEL &&
    u.reputationScore >= MIN_RENT_REPUTATION
  }

  /** Falsifying any one of the four conditions makes a user ineligible,
      whatever the other three are. */
  lemma EligibilityNeedsEach(u: User, balance: nat)
    ensures !u.isActive ==> !Eligible(u)
    ensures !u.hasPaymentMethod ==> !Eligible(u)
    ensures u.verificationLevel < MIN_RENT_LEVEL ==> !Eligible(u)
    ensures u.reputationScore < MIN_RENT_REPUTATION ==> !Eligible(u)
    ensures Eligible(u.(depositBalance := balance)) == Eligible(u)
  {
  }

  class UserLedger {
    var contractOwner: Principal
    var users: map<Principal, User>
    var paymentMethods: map<Principal, PaymentMethod>
    var documents: map<(Principal, string), Document>

    /** Levels stay in 0..3 and reputation at most 100; a user's payment flag
        is set exactly when the user has a payment method; payment methods
        and documents belong to registered users; a document still pending
        has never been given a verification time or expiry. */
    ghost predicate Valid()
      reads this
    {
      && (forall u | u in users ::
            && users[u].verificationLevel <= MAX_VERIFICATION_LEVEL
            && users[u].reputationScore <= MAX_REPUTATION
            && (users[u].hasPaymentMethod <==> u in paymentMethods))
      && paymentMethods.Keys <= users.Keys
      && (forall key | key in documents :: key.0 in users)
      && (forall key | key in documents && documents[key].status == Pending ::
            documents[key].verifiedAt == 0 && documents[key].verificationExpiry == 0)
    }

    constructor (owner: Principal)
      ensures Valid()
      ensures contractOwner == owner
      ensures users == map[] && paymentMethods == map[] && documents == map[]
    {
      contractOwner := owner;
      users, paymentMethods, documents := map[], map[], map[];
    }

    method SetContractOwner(caller: Principal, newOwner: Principal) returns (r: Outcome<Error>)
      requires Valid()
      modifies this
      ensures Valid()
      ensures r == (if caller == old(contractOwner) then Pass else Fail(NotAuthorized))
      ensures contractOwner == (if r.Pass? then newOwner else old(contractOwner))
      ensures users == old(users) && paymentMethods == old(paymentMethods) && documents == old(documents)
    {
      if caller != contractOwner {
        return Fail(NotAuthorized);
      }
      contractOwner := newOwner;
      return Pass;
    }

    /** Self-service: the record is keyed by the caller. */
    method RegisterUser(caller: Principal, now: nat, username: string, emailHash: string, phoneHash: string)
      returns (r: Result<Principal, Error>)
      requires Valid()
      modifies this
      ensures Valid()
      ensures r.Err? <==> caller in old(users)
      ensures r.Err? ==> r.error == UserExists && unchanged(this)
      ensures r.Ok? ==>
        && r.value == caller
        && users == old(users)[caller := User(username, emailHash, phoneHash, 0, now, now, true, false,
                                             0, INITIAL_REPUTATION, 0, 0, 0)]
        && paymentMethods == old(paymentMethods) && documents == old(documents)
        && contractOwner == old(contractOwner)
      ensures r.Ok? ==> !CanRentBike(caller) && GetUserDepositBalance(caller) == Ok(0)
    {
      if caller in users {
        return Err(UserExists);
      }
      users := users[caller := User(username, emailHash, phoneHash, 0, now, now, true, false,
                                    0, INITIAL_REPUTATION, 0, 0, 0)];
      return Ok(caller);
    }

    method UpdateUserProfile(caller: Principal, now: nat, username: string, emailHash: string, phoneHash: string)
      returns (r: Outcome<Error>)
      requires Valid()
      modifies this
      ensures Valid()
      ensures r.Fail? <==> caller !in old(users)
      ensures r.Fail? ==> r.error == UserNotFound && unchanged(this)
      ensures r.Pass? ==>
        && users == old(users)[caller := old(users)[caller].(username := username, emailHash := emailHash,
                                                               phoneHash := phoneHash, lastUpdated := now)]
        && paymentMethods == old(paymentMethods) && documents == old(documents)
        && contractOwner == old(contractOwner)
    {
      if caller !in users {
        return Fail(UserNotFound);
      }
      var u := users[caller];
      users := users[caller := u.(username := username, emailHash := emailHash, phoneHash := phoneHash,
                                  lastUpdated := now)];
      return Pass;
    }

    method SetUserActiveStatus(caller: Principal, now: nat, isActive: bool) returns (r: Result<bool, Error>)
      requires Valid()
      modifies this
      ensures Valid()
      ensures r.Err? <==> caller !in old(users)
      ensures r.Err? ==> r.error == UserNotFound && unchanged(this)
      ensures r.Ok? ==>
        && r.value == isActive
        && users == old(users)[caller := old(users)[caller].(isActive := isActive, lastUpdated := now)]
        && paymentMethods == old(paymentMethods) && documents == old(documents)
        && contractOwner == old(contractOwner)
      ensures r.Ok? && !isActive ==> !CanRentBike(caller)
    {
      if caller !in users {
        return Err(UserNotFound);
      }
      var u := users[caller];
      users := users[caller := u.(isActive := isActive, lastUpdated := now)];
      return Ok(isActive);
    }

    /** Owner only; levels of 4 and above are rejected. */
    method UpdateUserVerificationLevel(caller: Principal, now: nat, userId: Principal, level: nat)
      returns (r: Result<nat, Error>)
      requires Valid()
      modifies this
      ensures Valid()
      ensures caller != old(contractOwner) ==> r == Err(NotAuthorized)
      ensures caller == old(contractOwner) && userId !in old(users) ==> r == Err(UserNotFound)
      ensures caller == old(contractOwner) && userId in old(users) && level > MAX_VERIFICATION_LEVEL ==>
        r == Err(InvalidVerificationLevel)
      ensures r.Ok? <==> caller == old(contractOwner) && userId in old(users) && level <= MAX_VERIFICATION_LEVEL
      ensures r.Err? ==> unchanged(this)
      ensures r.Ok? ==>
        && r.value == level
        && users == old(users)[userId := old(users)[userId].(verificationLevel := level, lastUpdated := now)]
        && paymentMethods == old(paymentMethods) && documents == old(documents)
        && contractOwner == old(contractOwner)
    {
      if caller != contractOwner {
        return Err(NotAuthorized);
      }
      if userId !in users {
        return Err(UserNotFound);
      }
      if level >= 4 {
        return Err(InvalidVerificationLevel);
      }
      var u := users[userId];
      users := users[userId := u.(verificationLevel := level, lastUpdated := now)];
      return Ok(level);
    }

    /** Replaces any earlier payment method of the caller. */
    method AddPaymentMethod(caller: Principal, now: nat, provider: string, tokenHash: string,
                            billingAddressHash: string)
      returns (r: Outcome<Error>)
      requires Valid()
      modifies this
      ensures Valid()
      ensures r.Fail? <==> caller !in old(users)
      ensures r.Fail? ==> r.error == UserNotFound && unchanged(this)
      ensures r.Pass? ==>
        && paymentMethods == old(paymentMethods)[caller := PaymentMethod(provider, tokenHash, true, now, now,
                                                                         billingAddressHash)]
        && users == old(users)[caller := old(users)[caller].(hasPaymentMethod := true, lastUpdated := now)]
        && documents == old(documents) && contractOwner == old(contractOwner)
      ensures r.Pass? ==> HasValidPaymentMethod(caller)
    {
      if caller !in users {
        return Fail(UserNotFound);
      }
      paymentMethods := paymentMethods[caller := PaymentMethod(provider, tokenHash, true, now, now,
                                                               billingAddressHash)];
      var u := users[caller];
      users := users[caller := u.(hasPaymentMethod := true, lastUpdated := now)];
      return Pass;
    }

    method RemovePaymentMethod(caller: Principal, now: nat) returns (r: Outcome<Error>)
      requires Valid()
      modifies this
      ensures Valid()
      ensures caller !in old(users) ==> r == Fail(UserNotFound)
      ensures caller in old(users) && caller !in old(paymentMethods) ==> r == Fail(PaymentMethodNotFound)
      ensures r.Pass? <==> caller in old(paymentMethods)
      ensures r.Fail? ==> unchanged(this)
      ensures r.Pass? ==>
        && paymentMethods == old(paymentMethods) - {caller}
        && users == old(users)[caller := old(users)[caller].(hasPaymentMethod := false, lastUpdated := now)]
        && documents == old(documents) && contractOwner == old(contractOwner)
      ensures r.Pass? ==> !HasValidPaymentMethod(caller) && !CanRentBike(caller)
    {
      if caller !in users {
        return Fail(UserNotFound);
      }
      if caller !in paymentMethods {
        return Fail(PaymentMethodNotFound);
      }
      paymentMethods := paymentMethods - {caller};
      var u := users[caller];
      users := users[caller := u.(hasPaymentMethod := false, lastUpdated := now)];
      return Pass;
    }

    /** Returns the new balance. */
    method AddDeposit(caller: Principal, now: nat, amount: nat) returns (r: Result<nat, Error>)
      requires Valid()
      modifies this
      ensures Valid()
      ensures r.Err? <==> caller !in old(users)
      ensures r.Err? ==> r.error == UserNotFound && unchanged(this)
      ensures r.Ok? ==>
        && r.value == old(users)[caller].depositBalance + amount
        && users == old(users)[caller := old(users)[caller].(depositBalance := r.value, lastUpdated := now)]
        && paymentMethods == old(paymentMethods) && documents == old(documents)
        && contractOwner == old(contractOwner)
      ensures r.Ok? ==> GetUserDepositBalance(caller) == r
    {
      if caller !in users {
        return Err(UserNotFound);
      }
      var u := users[caller];
      var balance := u.depositBalance + amount;
      users := users[caller := u.(depositBalance := balance, lastUpdated := now)];
      return Ok(balance);
    }

    /** Returns the new balance; a withdrawal larger than the balance is
        refused, so the balance never goes negative. */
    method WithdrawDeposit(caller: Principal, now: nat, amount: nat) returns (r: Result<nat, Error>)
      requires Valid()
      modifies this
      ensures Valid()
      ensures caller !in old(users) ==> r == Err(UserNotFound)
      ensures caller in old(users) && amount > old(users)[caller].depositBalance ==> r == Err(InsufficientBalance)
      ensures r.Ok? <==> caller in old(users) && amount <= old(users)[caller].depositBalance
      ensures r.Err? ==> unchanged(this)
      ensures r.Ok? ==>
        && r.value + amount == old(users)[caller].depositBalance
        && users == old(users)[caller := old(users)[caller].(depositBalance := r.value, lastUpdated := now)]
        && paymentMethods == old(paymentMethods) && documents == old(documents)
        && contractOwner == old(contractOwner)
      ensures r.Ok? ==> GetUserDepositBalance(caller) == r
    {
      if caller !in users {
        return Err(UserNotFound);
      }
      var u := users[caller];
      if u.depositBalance < amount {
        return Err(InsufficientBalance);
      }
      var balance := u.depositBalance - amount;
      users := users[caller := u.(depositBalance := balance, lastUpdated := now)];
      return Ok(balance);
    }

    /** Owner only: moves `amount` from the user's deposit to what the user
        has spent, so their sum is preserved. */
    method ChargeUser(caller: Principal, now: nat, userId: Principal, amount: nat) returns (r: Result<nat, Error>)
      requires Valid()
      modifies this
      ensures Valid()
      ensures caller != old(contractOwner) ==> r == Err(NotAuthorized)
      ensures caller == old(contractOwner) && userId !in old(users) ==> r == Err(UserNotFound)
      ensures caller == old(contractOwner) && userId in old(users) && amount > old(users)[userId].depositBalance ==>
        r == Err(InsufficientBalance)
      ensures r.Ok? <==>
        caller == old(contractOwner) && userId in old(users) && amount <= old(users)[userId].depositBalance
      ensures r.Err? ==> unchanged(this)
      ensures r.Ok? ==>
        var u := old(users)[userId];
        && r.value + amount == u.depositBalance
        && users == old(users)[userId := u.(depositBalance := r.value, totalSpent := u.totalSpent + amount,
                                            lastUpdated := now)]
        && paymentMethods == old(paymentMethods) && documents == old(documents)
        && contractOwner == old(contractOwner)
      ensures r.Ok? ==> GetUserDepositBalance(userId) == r
      ensures r.Ok? ==>
        users[userId].depositBalance + users[userId].totalSpent ==
        old(users)[userId].depositBalance + old(users)[userId].totalSpent
    {
      if caller != contractOwner {
        return Err(NotAuthorized);
      }
      if userId !in users {
        return Err(UserNotFound);
      }
      var u := users[userId];
      if u.depositBalance < amount {
        return Err(InsufficientBalance);
      }
      var balance := u.depositBalance - amount;
      users := users[userId := u.(depositBalance := balance, totalSpent := u.totalSpent + amount,
                                  lastUpdated := now)];
      return Ok(balance);
    }

    /** Self-service; one document per (user, type), stored as pending. */
    method SubmitVerificationDocument(caller: Principal, now: nat, documentType: string, documentHash: string)
      returns (r: Outcome<Error>)
      requires Valid()
      modifies this
      ensures Valid()
      ensures caller !in old(users) ==> r == Fail(UserNotFound)
      ensures caller in old(users) && (caller, documentType) in old(documents) ==> r == Fail(DocumentExists)
      ensures r.Pass? <==> caller in old(users) && (caller, documentType) !in old(documents)
      ensures r.Fail? ==> unchanged(this)
      ensures r.Pass? ==>
        && documents == old(documents)[(caller, documentType) := Document(documentHash, Pending, now, 0, 0)]
        && users == old(users) && paymentMethods == old(paymentMethods)
        && contractOwner == old(contractOwner)
    {
      if caller !in users {
        return Fail(UserNotFound);
      }
      if (caller, documentType) in documents {
        return Fail(DocumentExists);
      }
      documents := documents[(caller, documentType) := Document(documentHash, Pending, now, 0, 0)];
      return Pass;
    }

    /** Owner only; records the verdict and an expiry `expiryBlocks` blocks
        from now, keeping the document's hash. */
    method VerifyDocument(caller: Principal, now: nat, userId: Principal, documentType: string, status: string,
                          expiryBlocks: nat)
      returns (r: Result<DocumentStatus, Error>)
      requires Valid()
      modifies this
      ensures Valid()
      ensures caller != old(contractOwner) ==> r == Err(NotAuthorized)
      ensures caller == old(contractOwner) && (userId, documentType) !in old(documents) ==> r == Err(DocumentNotFound)
      ensures caller == old(contractOwner) && (userId, documentType) in old(documents) && ParseVerdict(status).None? ==>
        r == Err(InvalidVerificationStatus)
      ensures r.Ok? <==>
        caller == old(contractOwner) && (userId, documentType) in old(documents) && ParseVerdict(status).Some?
      ensures r.Err? ==> unchanged(this)
      ensures r.Ok? ==>
        var d := old(documents)[(userId, documentType)];
        && r.value == ParseVerdict(status).value
        && documents == old(documents)[(userId, documentType) := d.(status := r.value, verifiedAt := now,
                                                                    verificationExpiry := now + expiryBlocks)]
        && documents[(userId, documentType)].documentHash == d.documentHash
        && users == old(users) && paymentMethods == old(paymentMethods)
        && contractOwner == old(contractOwner)
      ensures r.Ok? ==>
        forall t: nat :: IsDocumentVerificationExpired(userId, documentType, t) <==> t > now + expiryBlocks
    {
      if caller != contractOwner {
        return Err(NotAuthorized);
      }
      if (userId, documentType) !in documents {
        return Err(DocumentNotFound);
      }
      var verdict := ParseVerdict(status);
      if verdict.None? {
        return Err(InvalidVerificationStatus);
      }
      var d := documents[(userId, documentType)];
      documents := documents[(userId, documentType) := d.(status := verdict.value, verifiedAt := now,
                                                          verificationExpiry := now + expiryBlocks)];
      return Ok(verdict.value);
    }

    /** Owner only; adds to the user's running totals. */
    method UpdateUserRidingStats(caller: Principal, now: nat, userId: Principal, ridesToAdd: nat,
                                 minutesToAdd: nat, amountSpent: nat)
      returns (r: Outcome<Error>)
      requires Valid()
      modifies this
      ensures Valid()
      ensures caller != old(contractOwner) ==> r == Fail(NotAuthorized)
      ensures caller == old(contractOwner) && userId !in old(users) ==> r == Fail(UserNotFound)
      ensures r.Pass? <==> caller == old(contractOwner) && userId in old(users)
      ensures r.Fail? ==> unchanged(this)
      ensures r.Pass? ==>
        var u := old(users)[userId];
        && users == old(users)[userId := u.(totalRides := u.totalRides + ridesToAdd,
                                            totalRideMinutes := u.totalRideMinutes + minutesToAdd,
                                            totalSpent := u.totalSpent + amountSpent, lastUpdated := now)]
        && paymentMethods == old(paymentMethods) && documents == old(documents)
        && contractOwner == old(contractOwner)
    {
      if caller != contractOwner {
        return Fail(NotAuthorized);
      }
      if userId !in users {
        return Fail(UserNotFound);
      }
      var u := users[userId];
      users := users[userId := u.(totalRides := u.totalRides + ridesToAdd,
                                  totalRideMinutes := u.totalRideMinutes + minutesToAdd,
                                  totalSpent := u.totalSpent + amountSpent, lastUpdated := now)];
      return Pass;
    }

    /** Owner only; scores above 100 are rejected. */
    method UpdateReputationScore(caller: Principal, now: nat, userId: Principal, score: nat)
      returns (r: Result<nat, Error>)
      requires Valid()
      modifies this
      ensures Valid()
      ensures caller != old(contractOwner) ==> r == Err(NotAuthorized)
      ensures caller == old(contractOwner) && userId !in old(users) ==> r == Err(UserNotFound)
      ensures caller == old(contractOwner) && userId in old(users) && score > MAX_REPUTATION ==> r == Err(InvalidScore)
      ensures r.Ok? <==> caller == old(contractOwner) && userId in old(users) && score <= MAX_REPUTATION
      ensures r.Err? ==> unchanged(this)
      ensures r.Ok? ==>
        && r.value == score
        && users == old(users)[userId := old(users)[userId].(reputationScore := score, lastUpdated := now)]
        && paymentMethods == old(paymentMethods) && documents == old(documents)
        && contractOwner == old(contractOwner)
    {
      if caller != contractOwner {
        return Err(NotAuthorized);
      }
      if userId !in users {
        return Err(UserNotFound);
      }
      if score > 100 {
        return Err(InvalidScore);
      }
      var u := users[userId];
      users := users[userId := u.(reputationScore := score, lastUpdated := now)];
      return Ok(score);
    }

    // -------------------------------------------------------------------------
    // Read-only queries

    /** A stored profile always has a level in 0..3, a reputation of at most
        100, and a payment flag that matches the payment-method table. */
    function GetUserProfile(userId: Principal): (r: Option<User>)
      requires Valid()
      reads this
      ensures r.Some? <==> userId in users
      ensures r.Some? ==>
        && r.value.verificationLevel <= MAX_VERIFICATION_LEVEL
        && r.value.reputationScore <= MAX_REPUTATION
        && (r.value.hasPaymentMethod <==> userId in paymentMethods)
    {
      if userId in users then Some(users[userId]) else None
    }

    /** Reads the user's flag, which agrees with the payment-method table. */
    function HasValidPaymentMethod(userId: Principal): (r: bool)
      requires Valid()
      reads this
      ensures r <==> userId in paymentMethods
    {
      if userId in users then users[userId].hasPaymentMethod else false
    }

    function GetUserVerificationLevel(userId: Principal): (r: Result<nat, Error>)
      requires Valid()
      reads this
      ensures r.Err? <==> userId !in users
      ensures r.Err? ==> r.error == UserNotFound
      ensures r.Ok? ==> r.value <= MAX_VERIFICATION_LEVEL
    {
      if userId in users then Ok(users[userId].verificationLevel) else Err(UserNotFound)
    }

    /** A plain lookup; the deposit operations state what it returns after
        them. */
    function GetUserDepositBalance(userId: Principal): Result<nat, Error>
      reads this
    {
      if userId in users then Ok(users[userId].depositBalance) else Err(UserNotFound)
    }

    /** Documents exist only for registered users. */
    function GetDocumentVerificationStatus(userId: Principal, documentType: string): (r: Result<DocumentStatus, Error>)
      requires Valid()
      reads this
      ensures r.Ok? ==> userId in users && (userId, documentType) in documents
      ensures r.Err? <==> (userId, documentType) !in documents
      ensures r.Err? ==> r.error == DocumentNotFound
    {
      if (userId, documentType) in documents then Ok(documents[(userId, documentType)].status)
      else Err(DocumentNotFound)
    }

    /** Strictly past the expiry; never true of a missing document. A pending
        document has expiry 0 and so reads as expired at every block after 0. */
    function IsDocumentVerificationExpired(userId: Principal, documentType: string, now: nat): (r: bool)
      requires Valid()
      reads this
      ensures r ==> (userId, documentType) in documents
      ensures ((userId, documentType) in documents && documents[(userId, documentType)].status == Pending &&
               now > 0) ==> r
    {
      if (userId, documentType) in documents then now > documents[(userId, documentType)].verificationExpiry
      else false
    }

    /** A user may rent when registered, active, with a payment method, a
        verification level of at least 1 and a reputation of at least 50. */
    function CanRentBike(userId: Principal): (r: bool)
      requires Valid()
      reads this
      ensures r ==> userId in users && userId in paymentMethods
      ensures r <==> userId in users && Eligible(users[userId])
    {
      if userId in users then Eligible(users[userId]) else false
    }
  }
}
