/** The server process: the OTP map it keeps in memory and the collections it persists,
    with one method per route of the core. Each method updates the state in place and its
    contract ties the new state to the old one. */
module Server {
  import opened Wrappers
  import opened Strings
  import Whatsapp
  import Otp
  import opened Orders

  /** The process-wide `otpStore` Map. */
  class OtpStore {
    var entries: Otp.Store

    ghost predicate Valid()
      reads this
    {
      Otp.WellFormed(entries)
    }

    constructor ()
      ensures Valid() && entries == map[]
    {
      entries := map[];
    }

    /** POST /api/otp/send: the code is written before delivery and deleted if delivery fails. */
    method Send(settings: map<string, string>, phone: string, now: int, code: Otp.Code,
                remote: Whatsapp.Remote) returns (outcome: Otp.SendOutcome)
      requires Valid()
      modifies this
      ensures Valid()
      ensures (outcome, entries) == Otp.Send(old(entries), settings, phone, now, code, remote)
    {
      Otp.SendKeepsWellFormed(entries, settings, phone, now, code, remote);
      if phone == "" || |DigitsOnly(phone)| < 10 {
        return Otp.InvalidPhone;
      }
      if phone in entries && now - entries[phone].createdAt < Otp.ResendCooldownMs {
        return Otp.RateLimited;
      }
      var otp := DecimalString(code);
      entries := entries[phone := Otp.OtpRecord(otp, now + Otp.TtlMs, now, 0, false)];
      var result := Whatsapp.SendMessage(settings, phone, Otp.OtpMessage(otp), "", remote);
      if result.outcome.Sent? {
        outcome := Otp.OtpSent;
      } else {
        entries := entries - {phone};
        assert entries == old(entries) - {phone};
        var error := result.outcome.error;
        outcome := Otp.DeliveryFailed(if error != "" then error else Otp.SendFailedDefault);
      }
    }

    /** POST /api/otp/verify: the stored record is updated in place. */
    method Verify(phone: string, otp: string, now: int) returns (outcome: Otp.VerifyOutcome)
      requires Valid()
      modifies this
      ensures Valid()
      ensures (outcome, entries) == Otp.Verify(old(entries), phone, otp, now)
      ensures outcome.Incorrect? ==> 0 <= outcome.remaining <= 2
    {
      Otp.VerifyKeepsWellFormed(entries, phone, otp, now);
      if phone == "" || otp == "" {
        return Otp.MissingFields;
      }
      if phone !in entries {
        return Otp.NotFound;
      }
      var stored := entries[phone];
      if now > stored.expiresAt {
        entries := entries - {phone};
        return Otp.Expired;
      }
      stored := stored.(attempts := stored.attempts + 1);
      entries := entries[phone := stored];
      if stored.attempts > Otp.MaxAttempts {
        entries := entries - {phone};
        assert entries == old(entries) - {phone};
        return Otp.TooManyAttempts;
      }
      if stored.otp != otp {
        return Otp.Incorrect(Otp.MaxAttempts - stored.attempts);
      }
      stored := stored.(verified := true);
      entries := entries[phone := stored];
      assert entries == old(entries)[phone := old(entries)[phone].(attempts := stored.attempts, verified := true)];
      outcome := Otp.Verified;
    }

    /** The check-and-delete each consuming route performs. */
    method Consume(phone: string) returns (ok: bool)
      requires Valid()
      modifies this
      ensures Valid()
      ensures ok == Otp.Consumable(old(entries), phone)
      ensures entries == Otp.Consume(old(entries), phone)
    {
      var otpData := if phone in entries then Some(entries[phone]) else None;
      if otpData.None? || !otpData.value.verified {
        return false;
      }
      entries := entries - {phone};
      ok := true;
    }

    /** The cleanup every ten minutes: delete each record whose expiry `now` has passed. */
    method Sweep(now: int)
      requires Valid()
      modifies this
      ensures Valid()
      ensures entries == Otp.Sweep(old(entries), now)
    {
      Otp.SweepKeepsWellFormed(entries, now);
      var pending := entries.Keys;
      while pending != {}
        invariant pending <= old(entries).Keys
        invariant entries == map p | p in old(entries) && (p in pending || now <= old(entries)[p].expiresAt)
                               :: old(entries)[p]
        decreases pending
      {
        var phone :| phone in pending;
        if now > entries[phone].expiresAt {
          entries := entries - {phone};
        }
        pending := pending - {phone};
      }
    }
  }

  datatype RouteError =
    | MissingFields     // 400: a required body field is absent
    | NotVerified       // 403: no verified OTP record for the phone
    | ProfileNotFound   // 404
    | ProductNotFound   // 404
    | NoValidProducts   // 400: no cart line resolved
    | SaveRejected      // 500: the order schema refused the document

  /** The `profile` object the profile routes answer with. */
  datatype Profile = Profile(id: Id, phone: string)

  /** What an order route answers with on success. */
  datatype Placed = Placed(orderId: Id, order: Order, whatsappSent: bool)

  /** A guest must hold a consumable OTP record; a request naming a customer id need not. */
  predicate Authorized(s: Otp.Store, phone: string, customerId: Option<Id>)
  {
    customerId.Some? || Otp.Consumable(s, phone)
  }

  /** The confirmation texts (their formatting is not modelled). */
  const OrderConfirmation := "Order Confirmed - Anandamoyee India"

  /** The server: the OTP map and the products, customers, orders and settings collections.
      `nextId` stands for the database's id generator. */
  class Shop {
    const otp: OtpStore
    var products: map<Id, Product>
    var customers: map<Id, Customer>
    var orders: map<Id, Order>
    var settings: map<string, string>
    var nextId: nat

    ghost predicate Valid()
      reads this, otp
    {
      && otp.Valid()
      && (forall k :: k in customers ==> k < nextId)
      && (forall k :: k in orders ==> k < nextId)
      && PhonesUnique(customers)
    }

    constructor (products: map<Id, Product>, settings: map<string, string>)
      ensures Valid() && fresh(otp) && otp.entries == map[]
      ensures this.products == products && this.settings == settings
      ensures customers == map[] && orders == map[]
    {
      otp := new OtpStore();
      this.products := products;
      this.settings := settings;
      customers := map[];
      orders := map[];
      nextId := 0;
    }

    /** POST /api/profile/login: consume the OTP, then find the customer with this phone or
        create one. */
    method Login(phone: string) returns (r: Result<Profile, RouteError>)
      requires Valid()
      modifies this, otp
      ensures Valid()
      ensures products == old(products) && orders == old(orders) && settings == old(settings)
      ensures phone == "" ==> r == Failure(MissingFields) && otp.entries == old(otp.entries)
      ensures phone != "" ==> otp.entries == Otp.Consume(old(otp.entries), phone)
      ensures phone != "" && !Otp.Consumable(old(otp.entries), phone) ==> r == Failure(NotVerified)
      ensures r.Success? <==> phone != "" && Otp.Consumable(old(otp.entries), phone)
      ensures r.Failure? ==> customers == old(customers)
      ensures r.Success? ==> r.value.phone == phone && PhoneOwners(customers, phone) == {r.value.id}
      ensures r.Success? && PhoneOwners(old(customers), phone) != {} ==>
                customers == old(customers) && r.value.id in old(customers)
      ensures r.Success? && PhoneOwners(old(customers), phone) == {} ==>
                && r.value.id !in old(customers)
                && customers == old(customers)[r.value.id := Customer(phone)]
    {
      if phone == "" {
        return Failure(MissingFields);
      }
      var verified := otp.Consume(phone);
      if !verified {
        return Failure(NotVerified);
      }
      if exists k :: k in customers && customers[k].phone == phone {
        var k :| k in customers && customers[k].phone == phone;
        UniquePhoneOwner(customers, phone, k);
        r := Success(Profile(k, phone));
      } else {
        var id := nextId;
        nextId := nextId + 1;
        customers := customers[id := Customer(phone)];
        assert PhoneOwners(customers, phone) == {id};
        r := Success(Profile(id, phone));
      }
    }

    /** PUT /api/profile/:id/phone: consume the OTP of the new phone, then move the phone to
        this customer, absorbing another customer that owned it (deleted, its orders
        reattributed). `absorbed` names that customer. */
    method ChangePhone(id: Id, newPhone: string) returns (r: Result<Profile, RouteError>, ghost absorbed: Option<Id>)
      requires Valid()
      modifies this, otp
      ensures Valid()
      ensures products == old(products) && settings == old(settings)
      ensures newPhone == "" ==> r == Failure(MissingFields) && otp.entries == old(otp.entries)
      ensures newPhone != "" ==> otp.entries == Otp.Consume(old(otp.entries), newPhone)
      ensures newPhone != "" && !Otp.Consumable(old(otp.entries), newPhone) ==> r == Failure(NotVerified)
      ensures newPhone != "" && Otp.Consumable(old(otp.entries), newPhone) && id !in old(customers) ==>
                r == Failure(ProfileNotFound)
      ensures r.Success? <==> newPhone != "" && Otp.Consumable(old(otp.entries), newPhone) && id in old(customers)
      ensures r.Failure? ==> customers == old(customers) && orders == old(orders)
      ensures r.Success? ==> r.value == Profile(id, newPhone) && PhoneOwners(customers, newPhone) == {id}
      ensures r.Success? && absorbed.Some? ==>
                && absorbed.value != id
                && PhoneOwners(old(customers), newPhone) == {absorbed.value}
                && customers == (old(customers) - {absorbed.value})[id := Customer(newPhone)]
                && orders == ReassignOrders(old(orders), absorbed.value, id)
      ensures r.Success? && absorbed.None? ==>
                && PhoneOwners(old(customers), newPhone) <= {id}
                && customers == old(customers)[id := Customer(newPhone)]
                && orders == old(orders)
    {
      absorbed := None;
      if newPhone == "" {
        r := Failure(MissingFields);
        return;
      }
      var verified := otp.Consume(newPhone);
      if !verified {
        r := Failure(NotVerified);
        return;
      }
      if id !in customers {
        r := Failure(ProfileNotFound);
        return;
      }
      var existing: Option<Id> := None;
      if exists k :: k in customers && customers[k].phone == newPhone {
        var k :| k in customers && customers[k].phone == newPhone;
        UniquePhoneOwner(customers, newPhone, k);
        existing := Some(k);
      } else {
        assert PhoneOwners(customers, newPhone) == {};
      }
      if existing.Some? && existing.value != id {
        customers := customers - {existing.value};
        orders := ReassignOrders(orders, existing.value, id);
        absorbed := existing;
      }
      customers := customers[id := Customer(newPhone)];
      assert PhoneOwners(customers, newPhone) == {id};
      r := Success(Profile(id, newPhone));
    }

    /** POST /api/orders: a single-product order. */
    method PlaceOrder(productId: Option<Id>, quantity: int, customerPhone: string,
                      customerId: Option<Id>, remote: Whatsapp.Remote)
      returns (r: Result<Placed, RouteError>)
      requires Valid()
      modifies this, otp
      ensures Valid()
      ensures products == old(products) && customers == old(customers) && settings == old(settings)
      ensures (productId.None? || quantity == 0 || customerPhone == "") ==>
                r == Failure(MissingFields) && otp.entries == old(otp.entries)
      ensures productId.Some? && quantity != 0 && customerPhone != "" ==>
                && (customerId.Some? ==> otp.entries == old(otp.entries))
                && (customerId.None? ==> otp.entries == Otp.Consume(old(otp.entries), customerPhone))
                && (!Authorized(old(otp.entries), customerPhone, customerId) ==> r == Failure(NotVerified))
                && (Authorized(old(otp.entries), customerPhone, customerId) && productId.value !in products ==>
                      r == Failure(ProductNotFound))
      ensures r.Success? <==>
                && productId.Some? && quantity != 0 && customerPhone != ""
                && Authorized(old(otp.entries), customerPhone, customerId)
                && productId.value in products
      ensures r.Failure? ==> orders == old(orders)
      ensures r.Success? ==>
                && r.value.orderId !in old(orders)
                && r.value.order == SingleOrder(products[productId.value], quantity, customerPhone, customerId)
                && r.value.order.totalAmount == products[productId.value].price * quantity
                && orders == old(orders)[r.value.orderId := r.value.order]
                && r.value.whatsappSent == Whatsapp.Deliverable(settings, remote)
    {
      if productId.None? || quantity == 0 || customerPhone == "" {
        return Failure(MissingFields);
      }
      if customerId.None? {
        var verified := otp.Consume(customerPhone);
        if !verified {
          return Failure(NotVerified);
        }
      }
      if productId.value !in products {
        return Failure(ProductNotFound);
      }
      var product := products[productId.value];
      var order := Order(customerId, SingleProduct(product.name, product.price, product.image, quantity),
                         product.price * quantity, customerPhone, Pending);
      var orderId := nextId;
      nextId := nextId + 1;
      orders := orders[orderId := order];
      var result := Whatsapp.SendMessage(settings, customerPhone, OrderConfirmation, "", remote);
      Whatsapp.SuccessIffDeliverable(settings, customerPhone, OrderConfirmation, "", remote);
      r := Success(Placed(orderId, order, result.outcome.Sent?));
    }

    /** POST /api/orders/cart: a multi-item order. The OTP is consumed before the products
        are looked up, so a cart with nothing resolvable still uses it up. */
    method PlaceCartOrder(items: seq<CartLine>, customerPhone: string, customerId: Option<Id>,
                          remote: Whatsapp.Remote)
      returns (r: Result<Placed, RouteError>)
      requires Valid()
      modifies this, otp
      ensures Valid()
      ensures products == old(products) && customers == old(customers) && settings == old(settings)
      ensures (items == [] || customerPhone == "") ==>
                r == Failure(MissingFields) && otp.entries == old(otp.entries)
      ensures items != [] && customerPhone != "" ==>
                && (customerId.Some? ==> otp.entries == old(otp.entries))
                && (customerId.None? ==> otp.entries == Otp.Consume(old(otp.entries), customerPhone))
                && (!Authorized(old(otp.entries), customerPhone, customerId) ==> r == Failure(NotVerified))
                && (Authorized(old(otp.entries), customerPhone, customerId) && ResolveItems(items, products) == [] ==>
                      r == Failure(NoValidProducts))
                && (Authorized(old(otp.entries), customerPhone, customerId) && ResolveItems(items, products) != []
                    && !SatisfiesSchema(CartOrder(ResolveItems(items, products), customerPhone, customerId)) ==>
                      r == Failure(SaveRejected))
      ensures r.Success? <==>
                && items != [] && customerPhone != ""
                && Authorized(old(otp.entries), customerPhone, customerId)
                && ResolveItems(items, products) != []
                && SatisfiesSchema(CartOrder(ResolveItems(items, products), customerPhone, customerId))
      ensures r.Failure? ==> orders == old(orders)
      ensures r.Success? ==>
                && r.value.orderId !in old(orders)
                && r.value.order == CartOrder(ResolveItems(items, products), customerPhone, customerId)
                && orders == old(orders)[r.value.orderId := r.value.order]
                && r.value.whatsappSent == Whatsapp.Deliverable(settings, remote)
    {
      if items == [] || customerPhone == "" {
        return Failure(MissingFields);
      }
      if customerId.None? {
        var verified := otp.Consume(customerPhone);
        if !verified {
          return Failure(NotVerified);
        }
      }
      var orderItems, totalAmount := CollectOrderItems(items, products);
      if |orderItems| == 0 {
        return Failure(NoValidProducts);
      }
      var order := Order(customerId, Items(orderItems), totalAmount, customerPhone, Pending);
      if !SatisfiesSchema(order) {
        return Failure(SaveRejected);
      }
      var orderId := nextId;
      nextId := nextId + 1;
      orders := orders[orderId := order];
      var result := Whatsapp.SendMessage(settings, customerPhone, OrderConfirmation, "", remote);
      Whatsapp.SuccessIffDeliverable(settings, customerPhone, OrderConfirmation, "", remote);
      r := Success(Placed(orderId, order, result.outcome.Sent?));
    }
  }

  /** A store-front configured with a messaging token. */
  function ScenarioSettings(): map<string, string> { map[Whatsapp.TokenKey := "token"] }

  /** From an empty store, a delivered send and an immediate verify with the sent code leave
      a consumable record for the phone. */
  lemma FreshGuestIsConsumable(settings: map<string, string>, phone: string, now: int, code: Otp.Code,
                               remote: Whatsapp.Remote)
    requires Otp.AcceptablePhone(phone) && Whatsapp.Deliverable(settings, remote)
    ensures var s1 := Otp.Send(map[], settings, phone, now, code, remote).1;
            Otp.Consumable(Otp.Verify(s1, phone, DecimalString(code), now).1, phone)
  {
    Otp.IssueVerifyConsume(map[], settings, phone, now, code, remote, now);
  }

  /** A guest's way through the routes, for any phone the send route accepts: send a code,
      verify it, log in, and try to log in a second time with the same verification. */
  method GuestLoginScenario(phone: string, now: int, code: Otp.Code)
    returns (first: Result<Profile, RouteError>, second: Result<Profile, RouteError>)
    requires Otp.AcceptablePhone(phone)
    ensures first.Success? && first.value.phone == phone
    ensures second == Failure(NotVerified)
  {
    var remote := Whatsapp.Responded(true, "");
    FreshGuestIsConsumable(ScenarioSettings(), phone, now, code, remote);
    var shop := new Shop(map[], ScenarioSettings());
    var sent := shop.otp.Send(shop.settings, phone, now, code, remote);
    var verified := shop.otp.Verify(phone, DecimalString(code), now);
    first := shop.Login(phone);
    second := shop.Login(phone);
  }
}
