/** The Mediator pattern: postal users never address each other directly; a parcel
    service looks recipients up by postal code and returns undeliverable parcels.
    Accepting users keep the parcels they receive; rejecting users send every
    parcel back to where it came from. */
module Mediator {
  import opened Wrappers

  /** A null argument, or a routing that would not end within the given number of sends. */
  datatype MediatorError = ArgumentNull | FuelExhausted

  /** A parcel is only ever compared by identity. */
  class Parcel {
    constructor ()
    {
    }
  }

  class PostalUser {
    const postalCode: string
    /** A rejecting user sends back everything it receives and keeps nothing. */
    const rejecting: bool
    var parcelsReceived: seq<Parcel>

    constructor (postalCode: string, rejecting: bool)
      ensures this.postalCode == postalCode && this.rejecting == rejecting
      ensures parcelsReceived == []
    {
      this.postalCode := postalCode;
      this.rejecting := rejecting;
      parcelsReceived := [];
    }

    /** An accepting user keeps the parcel; a rejecting one has the service send it back
        to `fromPostalCode`. */
    method ReceiveParcel(service: ParcelService, fromPostalCode: string, parcel: Parcel, fuel: nat)
        returns (r: Outcome<MediatorError>)
      modifies service.usersByPostalCode.Values, this
      ensures var d := Receive(old(service.usersByPostalCode), this, fromPostalCode, fuel);
              && r == (if d == Exhausted then Fail(FuelExhausted) else Pass)
              && (forall u: PostalUser | u in old(service.usersByPostalCode).Values || u == this ::
                    u.parcelsReceived == if d == DeliveredTo(u) then old(u.parcelsReceived) + [parcel]
                                         else old(u.parcelsReceived))
      decreases fuel, 1
    {
      if rejecting {
        r := service.Send(this, fromPostalCode, parcel, fuel);
      } else {
        parcelsReceived := parcelsReceived + [parcel];
        r := Pass;
      }
    }

    method SendParcel(service: ParcelService, toPostalCode: string, parcel: Parcel, fuel: nat)
        returns (r: Outcome<MediatorError>)
      modifies service.usersByPostalCode.Values, this
      ensures var d := Route(old(service.usersByPostalCode), this, toPostalCode, fuel);
              && r == (if d == Exhausted then Fail(FuelExhausted) else Pass)
              && (forall u: PostalUser | u in old(service.usersByPostalCode).Values || u == this ::
                    u.parcelsReceived == if d == DeliveredTo(u) then old(u.parcelsReceived) + [parcel]
                                         else old(u.parcelsReceived))
    {
      r := service.Send(this, toPostalCode, parcel, fuel);
    }
  }

  /** What becomes of one parcel: it ends with one user, is lost, or is still bouncing
      when the bound on sends runs out. */
  datatype Delivery = DeliveredTo(recipient: PostalUser) | Dropped | Exhausted

  /** Each registered user is filed under its own postal code. */
  ghost predicate KeyedByPostalCode(users: map<string, PostalUser>)
  {
    forall code :: code in users ==> users[code].postalCode == code
  }

  /** The route a parcel takes when `from` sends it to `toPostalCode`, with at most `fuel`
      sends. A known recipient receives it; an unknown address returns it to an accepting
      sender and drops it for a rejecting one. */
  function Route(users: map<string, PostalUser>, from: PostalUser, toPostalCode: string, fuel: nat): (r: Delivery)
    ensures fuel == 0 ==> r == Exhausted
    ensures r.DeliveredTo? ==> !r.recipient.rejecting
    decreases fuel, 0
  {
    if fuel == 0 then Exhausted
    else if toPostalCode in users then Receive(users, users[toPostalCode], from.postalCode, fuel - 1)
    else if !from.rejecting then Receive(users, from, toPostalCode, fuel - 1)
    else Dropped
  }

  /** What `user` does with a parcel from `fromPostalCode`: keep it, or send it back. */
  function Receive(users: map<string, PostalUser>, user: PostalUser, fromPostalCode: string, fuel: nat): (r: Delivery)
    ensures !user.rejecting ==> r == DeliveredTo(user)
    ensures r.DeliveredTo? ==> !r.recipient.rejecting
    decreases fuel, 1
  {
    if user.rejecting then Route(users, user, fromPostalCode, fuel) else DeliveredTo(user)
  }

  /** A parcel only ever ends with an accepting user, registered or the one who started the
      step. */
  lemma {:induction false} RouteTarget(users: map<string, PostalUser>, from: PostalUser, toPostalCode: string, fuel: nat)
    ensures Route(users, from, toPostalCode, fuel).DeliveredTo? ==>
              var x := Route(users, from, toPostalCode, fuel).recipient;
              (x in users.Values || x == from) && !x.rejecting
    decreases fuel, 0
  {
    if fuel > 0 {
      if toPostalCode in users {
        ReceiveTarget(users, users[toPostalCode], from.postalCode, fuel - 1);
      } else if !from.rejecting {
        ReceiveTarget(users, from, toPostalCode, fuel - 1);
      }
    }
  }

  lemma {:induction false} ReceiveTarget(users: map<string, PostalUser>, user: PostalUser, fromPostalCode: string, fuel: nat)
    ensures Receive(users, user, fromPostalCode, fuel).DeliveredTo? ==>
              var x := Receive(users, user, fromPostalCode, fuel).recipient;
              (x in users.Values || x == user) && !x.rejecting
    decreases fuel, 1
  {
    if user.rejecting {
      RouteTarget(users, user, fromPostalCode, fuel);
    }
  }

  /** The mediator: a directory of users by postal code. */
  class ParcelService {
    var usersByPostalCode: map<string, PostalUser>

    ghost predicate Valid()
      reads this
    {
      KeyedByPostalCode(usersByPostalCode)
    }

    constructor ()
      ensures Valid() && usersByPostalCode == map[]
    {
      usersByPostalCode := map[];
    }

    /** Files the user under its postal code unless that code is already taken. */
    method Register(user: PostalUser?) returns (r: Outcome<MediatorError>)
      requires Valid()
      modifies this
      ensures Valid()
      ensures user == null ==> r == Fail(ArgumentNull) && usersByPostalCode == old(usersByPostalCode)
      ensures user != null ==>
                && r == Pass
                && usersByPostalCode == if user.postalCode in old(usersByPostalCode) then old(usersByPostalCode)
                                        else old(usersByPostalCode)[user.postalCode := user]
    {
      if user == null {
        return Fail(ArgumentNull);
      }
      if user.postalCode !in usersByPostalCode {
        usersByPostalCode := usersByPostalCode[user.postalCode := user];
      }
      r := Pass;
    }

    /** Delivers to the user registered under `toPostalCode`; with no such user, returns the
        parcel to an accepting sender and drops it for a rejecting one. */
    method Send(from: PostalUser?, toPostalCode: string, parcel: Parcel, fuel: nat)
        returns (r: Outcome<MediatorError>)
      modifies usersByPostalCode.Values, from
      ensures from == null ==> r == Fail(ArgumentNull)
      ensures from == null ==> forall u: PostalUser | u in old(usersByPostalCode).Values ::
                u.parcelsReceived == old(u.parcelsReceived)
      ensures from != null ==>
                var d := Route(old(usersByPostalCode), from, toPostalCode, fuel);
                && r == (if d == Exhausted then Fail(FuelExhausted) else Pass)
                && (forall u: PostalUser | u in old(usersByPostalCode).Values || u == from ::
                      u.parcelsReceived == if d == DeliveredTo(u) then old(u.parcelsReceived) + [parcel]
                                           else old(u.parcelsReceived))
      decreases fuel, 0
    {
      if from == null {
        return Fail(ArgumentNull);
      }
      if fuel == 0 {
        return Fail(FuelExhausted);
      }
      if toPostalCode in usersByPostalCode {
        var recipient := usersByPostalCode[toPostalCode];
        ReceiveTarget(usersByPostalCode, recipient, from.postalCode, fuel - 1);
        r := recipient.ReceiveParcel(this, from.postalCode, parcel, fuel - 1);
      } else if !from.rejecting {
        r := from.ReceiveParcel(this, toPostalCode, parcel, fuel - 1);
      } else {
        r := Pass;
      }
    }
  }

  /** A parcel for a registered accepting user reaches that user. */
  lemma DeliveredToAcceptingRecipient(users: map<string, PostalUser>, from: PostalUser, toPostalCode: string, fuel: nat)
    requires toPostalCode in users && !users[toPostalCode].rejecting && fuel >= 1
    ensures Route(users, from, toPostalCode, fuel) == DeliveredTo(users[toPostalCode])
  {
  }

  /** A parcel for an unknown postal code comes back to an accepting sender. */
  lemma ReturnedToAcceptingSender(users: map<string, PostalUser>, from: PostalUser, toPostalCode: string, fuel: nat)
    requires toPostalCode !in users && !from.rejecting && fuel >= 1
    ensures Route(users, from, toPostalCode, fuel) == DeliveredTo(from)
  {
  }

  /** A rejecting sender's parcel for an unknown postal code is lost. */
  lemma RejectingSenderToUnknownDropped(users: map<string, PostalUser>, from: PostalUser, toPostalCode: string, fuel: nat)
    requires toPostalCode !in users && from.rejecting && fuel >= 1
    ensures Route(users, from, toPostalCode, fuel) == Dropped
  {
  }

  /** A parcel a registered accepting user sends to a registered rejecting one comes back. */
  lemma BouncedBackToAcceptingSender(users: map<string, PostalUser>, from: PostalUser, toPostalCode: string, fuel: nat)
    requires toPostalCode in users && users[toPostalCode].rejecting
    requires from.postalCode in users && users[from.postalCode] == from && !from.rejecting
    requires fuel >= 2
    ensures Route(users, from, toPostalCode, fuel) == DeliveredTo(from)
  {
    assert Route(users, from, toPostalCode, fuel)
        == Route(users, users[toPostalCode], from.postalCode, fuel - 1);
  }

  /** Given two sends, the bound only runs out when a rejecting user has sent to a
      registered rejecting user. */
  lemma ExhaustedOnlyBetweenRejecting(users: map<string, PostalUser>, from: PostalUser, toPostalCode: string, fuel: nat)
    requires fuel >= 2
    requires Route(users, from, toPostalCode, fuel) == Exhausted
    ensures toPostalCode in users && users[toPostalCode].rejecting
    ensures from.postalCode in users && users[from.postalCode].rejecting
  {
    if toPostalCode in users && users[toPostalCode].rejecting {
      assert Route(users, from, toPostalCode, fuel)
          == Route(users, users[toPostalCode], from.postalCode, fuel - 1);
    }
  }

  /** As written, the service never finishes once a parcel is addressed from one registered
      rejecting user to another (or to itself): they return it to each other without end,
      whatever the bound. */
  lemma {:induction false} RejectingPairNeverEnds(users: map<string, PostalUser>, from: PostalUser, toPostalCode: string, fuel: nat)
    requires KeyedByPostalCode(users)
    requires toPostalCode in users && users[toPostalCode].rejecting
    requires from.postalCode in users && users[from.postalCode].rejecting
    ensures Route(users, from, toPostalCode, fuel) == Exhausted
    decreases fuel
  {
    if fuel > 0 {
      var recipient := users[toPostalCode];
      assert Route(users, from, toPostalCode, fuel) == Route(users, recipient, from.postalCode, fuel - 1);
      RejectingPairNeverEnds(users, recipient, from.postalCode, fuel - 1);
    }
  }

  /** A rejecting user who sends to its own registered postal code never finishes. */
  lemma SelfAddressedNeverEnds(users: map<string, PostalUser>, user: PostalUser, fuel: nat)
    requires KeyedByPostalCode(users)
    requires user.postalCode in users && users[user.postalCode] == user && user.rejecting
    ensures Route(users, user, user.postalCode, fuel) == Exhausted
  {
    RejectingPairNeverEnds(users, user, user.postalCode, fuel);
  }

  /** The routing with the guard against endless callbacks applied where the bounce
      happens: a rejecting recipient returns a parcel only to an address that does not
      belong to another rejecting user. It needs no bound. */
  function GuardedRoute(users: map<string, PostalUser>, from: PostalUser, toPostalCode: string): Delivery
  {
    if toPostalCode in users then
      var recipient := users[toPostalCode];
      if !recipient.rejecting then DeliveredTo(recipient)
      else if from.postalCode in users then
        var back := users[from.postalCode];
        if !back.rejecting then DeliveredTo(back) else Dropped
      else Dropped
    else if !from.rejecting then DeliveredTo(from)
    else Dropped
  }

  /** The guarded routing always reaches a verdict, and it is the source's verdict wherever
      the source finishes; the endless exchanges become lost parcels. */
  lemma GuardedRouteAgrees(users: map<string, PostalUser>, from: PostalUser, toPostalCode: string, fuel: nat)
    requires KeyedByPostalCode(users)
    requires fuel >= 2
    ensures GuardedRoute(users, from, toPostalCode) != Exhausted
    ensures GuardedRoute(users, from, toPostalCode)
         == if Route(users, from, toPostalCode, fuel) == Exhausted then Dropped
            else Route(users, from, toPostalCode, fuel)
  {
    if toPostalCode in users {
      var recipient := users[toPostalCode];
      if recipient.rejecting {
        assert Route(users, from, toPostalCode, fuel) == Route(users, recipient, from.postalCode, fuel - 1);
        if from.postalCode in users {
          var back := users[from.postalCode];
          assert Route(users, recipient, from.postalCode, fuel - 1)
              == Receive(users, back, recipient.postalCode, fuel - 2);
          if back.rejecting {
            RejectingPairNeverEnds(users, from, toPostalCode, fuel);
          }
        }
      }
    }
  }

  /** The example scenario: a rejecting company and an accepting customer. The customer
      receives the company's parcel, gets back a parcel sent to an unknown code, and gets
      back a parcel the company refuses. */
  method ParcelScenario()
  {
    var mediator := new ParcelService();
    var company := new PostalUser("12345", true);
    var customer := new PostalUser("54231", false);
    var registered := mediator.Register(company);
    registered := mediator.Register(customer);
    assert mediator.usersByPostalCode == map["12345" := company, "54231" := customer];
    ParcelDeliveries(mediator, company, customer);
  }

  /** The scenario's three parcels: company to customer, customer to nobody, customer to
      the rejecting company; all three end with the customer. */
  method ParcelDeliveries(mediator: ParcelService, company: PostalUser, customer: PostalUser)
    requires mediator.usersByPostalCode == map["12345" := company, "54231" := customer]
    requires company.postalCode == "12345" && company.rejecting
    requires customer.postalCode == "54231" && !customer.rejecting && customer.parcelsReceived == []
    modifies company, customer
  {
    var users := mediator.usersByPostalCode;
    assert users["12345"] == company && users["54231"] == customer;
    assert users.Values == {company, customer};

    var parcel1 := new Parcel();
    DeliveredToAcceptingRecipient(users, company, "54231", 3);
    var sent := company.SendParcel(mediator, "54231", parcel1, 3);
    assert sent == Pass && customer.parcelsReceived == [parcel1];

    var parcel2 := new Parcel();
    ReturnedToAcceptingSender(users, customer, "99999", 3);
    sent := customer.SendParcel(mediator, "99999", parcel2, 3);
    assert sent == Pass && customer.parcelsReceived == [parcel1, parcel2];

    var parcel3 := new Parcel();
    BouncedBackToAcceptingSender(users, customer, "12345", 3);
    sent := customer.SendParcel(mediator, "12345", parcel3, 3);
    assert sent == Pass && customer.parcelsReceived == [parcel1, parcel2, parcel3];
  }
}
