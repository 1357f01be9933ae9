/**
 * The get-cart action: echo a webhook challenge, or pull a cart id and an email
 * out of an analytics event's dimensions and fetch that cart from the commerce
 * platform.
 *
 * The event is reduced to its hit-summary dimensions, each a name with a data
 * sequence. The commerce client's `getCart` is a parameter mapping a cart id to
 * a cart (None: the returned promise rejects); the ids it is called with are
 * returned as a call log.
 */
module GetCart {
  import opened Js

  /** The two configuration entries the action reads: the names of the cart-id and email dimensions. */
  datatype Config = Config(analyticsCartIdDimension: string, analyticsEMailDimension: string)

  /** The analytics hit summary of an event: the data sequence of each dimension, by name. */
  datatype Event = Event(dimensions: map<string, seq<string>>)

  /** Why the action returns nothing, in the order the checks run. */
  datatype Skip = NoEvent | NoCartId | NoEmail

  datatype CartResult<C> = CartResult(cart: C, cartId: string, email: string)

  /** What the caller observes: the echoed input, nothing, a thrown TypeError, or the settled promise. */
  datatype Outcome<C> = Echoed | Skipped(why: Skip) | TypeError | Rejected | Resolved(result: CartResult<C>)

  /** The dimension `name` exists and its data sequence is not empty. */
  predicate HasData(dims: map<string, seq<string>>, name: string) {
    name in dims && |dims[name]| != 0
  }

  function Last(s: seq<string>): string
    requires s != []
  {
    s[|s| - 1]
  }

  function DropLast(s: seq<string>): seq<string>
    requires s != []
  {
    s[..|s| - 1]
  }

  /** The effect of the two lookups and pops on the dimensions: where it stops, or what it takes out. */
  datatype Extraction =
    | Stopped(why: Skip, rest: map<string, seq<string>>)
    | Extracted(cartId: string, email: string, rest: map<string, seq<string>>)

  /**
   * Take the last entry of the cart-id dimension, then the last entry of the
   * email dimension, each removed from its sequence; stop at the first dimension
   * that is missing or empty, keeping what was removed before.
   */
  function Extract(dims: map<string, seq<string>>, cartKey: string, emailKey: string): (x: Extraction)
    ensures x.rest.Keys == dims.Keys
    ensures x.Extracted? <==>
              HasData(dims, cartKey) && HasData(dims, emailKey) && (cartKey == emailKey ==> |dims[cartKey]| >= 2)
    ensures x.Stopped? ==> x.why != NoEvent
    ensures x == Stopped(NoCartId, dims) <==> !HasData(dims, cartKey)
    ensures x.Stopped? && HasData(dims, cartKey) ==> x.why == NoEmail
    ensures x.Stopped? && x.why == NoEmail ==> x.rest == dims[cartKey := DropLast(dims[cartKey])]
    ensures x.Extracted? && cartKey != emailKey ==>
              && x.cartId == Last(dims[cartKey])
              && x.email == Last(dims[emailKey])
              && x.rest == dims[cartKey := DropLast(dims[cartKey])][emailKey := DropLast(dims[emailKey])]
    ensures x.Extracted? && cartKey == emailKey ==>
              var s := dims[cartKey];
              && x.cartId == s[|s| - 1]
              && x.email == s[|s| - 2]
              && x.rest == dims[cartKey := s[..|s| - 2]]
    ensures forall k :: k in dims && k != cartKey && k != emailKey ==> x.rest[k] == dims[k]
  {
    if !HasData(dims, cartKey) then Stopped(NoCartId, dims)
    else
      var cartId := Last(dims[cartKey]);
      var afterCart := dims[cartKey := DropLast(dims[cartKey])];
      if !HasData(afterCart, emailKey) then Stopped(NoEmail, afterCart)
      else
        assert cartKey == emailKey ==> DropLast(afterCart[emailKey]) == dims[cartKey][..|dims[cartKey]| - 2];
        Extracted(cartId, Last(afterCart[emailKey]), afterCart[emailKey := DropLast(afterCart[emailKey])])
  }

  /** The input object of the action; keys other than the three it reads are kept in `extra`. */
  class GetCartArgs {
    var challenge: Value
    var event: Option<Event>
    var config: Option<Config>
    var extra: map<string, Value>

    /** The keys the action reads are not among the other keys. */
    ghost predicate Valid()
      reads this
    {
      "challenge" !in extra && "event" !in extra && "config" !in extra
    }

    /** The keys the object has; a key whose value is undefined counts as absent. */
    function Keys(): set<string>
      reads this
    {
      (if challenge != Undefined then {"challenge"} else {})
      + (if event.Some? then {"event"} else {})
      + (if config.Some? then {"config"} else {})
      + extra.Keys
    }

    constructor(challenge: Value, event: Option<Event>, config: Option<Config>, extra: map<string, Value>)
      requires "challenge" !in extra && "event" !in extra && "config" !in extra
      ensures Valid()
      ensures this.challenge == challenge && this.event == event && this.config == config && this.extra == extra
    {
      this.challenge := challenge;
      this.event := event;
      this.config := config;
      this.extra := extra;
    }

    /** `delete args.config`: the configuration key goes, every other key keeps its value. */
    method DeleteConfig()
      requires Valid()
      modifies this
      ensures Valid()
      ensures config.None?
      ensures challenge == old(challenge) && event == old(event) && extra == old(extra)
      ensures Keys() == old(Keys()) - {"config"}
    {
      config := None;
    }

    /** `dimensions[name].data.pop()`: removes the last entry of the dimension's data, in place, and returns it. */
    method PopData(name: string) returns (last: string)
      requires event.Some? && HasData(event.value.dimensions, name)
      modifies this
      ensures last == Last(old(event.value.dimensions[name]))
      ensures event == Some(Event(old(event.value.dimensions)[name := DropLast(old(event.value.dimensions[name]))]))
      ensures challenge == old(challenge) && config == old(config) && extra == old(extra)
    {
      var dims := event.value.dimensions;
      last := Last(dims[name]);
      event := Some(Event(dims[name := DropLast(dims[name])]));
    }
  }

  /**
   * The action. A challenge is echoed: the input object itself, with `config`
   * deleted. Otherwise the dimensions are checked and popped as `Extract` says,
   * in place, and the commerce client is called once, with the cart id, only
   * when both entries were found.
   */
  method GetCart<C>(args: GetCartArgs, fetchCart: string -> Option<C>) returns (o: Outcome<C>, calls: seq<string>)
    requires args.Valid()
    modifies args
    ensures args.Valid()
    ensures Truthy(old(args.challenge)) ==>
              && o == Echoed && calls == []
              && args.config.None?
              && args.challenge == old(args.challenge) && args.event == old(args.event) && args.extra == old(args.extra)
              && args.Keys() == old(args.Keys()) - {"config"}
    ensures !Truthy(old(args.challenge)) ==>
              args.challenge == old(args.challenge) && args.config == old(args.config) && args.extra == old(args.extra)
    ensures !Truthy(old(args.challenge)) && old(args.event).None? ==>
              o == Skipped(NoEvent) && calls == [] && args.event == old(args.event)
    ensures !Truthy(old(args.challenge)) && old(args.event).Some? && args.config.None? ==>
              o == TypeError && calls == [] && args.event == old(args.event)
    ensures !Truthy(old(args.challenge)) && old(args.event).Some? && args.config.Some? ==>
              var x := Extract(old(args.event).value.dimensions,
                               args.config.value.analyticsCartIdDimension,
                               args.config.value.analyticsEMailDimension);
              && args.event == Some(Event(x.rest))
              && (x.Stopped? ==> o == Skipped(x.why) && calls == [])
              && (x.Extracted? ==>
                    && calls == [x.cartId]
                    && o == match fetchCart(x.cartId)
                            case None => Rejected
                            case Some(cart) => Resolved(CartResult(cart, x.cartId, x.email)))
  {
    if Truthy(args.challenge) {
      args.DeleteConfig();
      return Echoed, [];
    }
    if args.event.None? {
      return Skipped(NoEvent), [];
    }
    if args.config.None? {
      return TypeError, [];
    }
    var cartKey := args.config.value.analyticsCartIdDimension;
    var emailKey := args.config.value.analyticsEMailDimension;
    if !HasData(args.event.value.dimensions, cartKey) {
      return Skipped(NoCartId), [];
    }
    var cartId := args.PopData(cartKey);
    if !HasData(args.event.value.dimensions, emailKey) {
      return Skipped(NoEmail), [];
    }
    var email := args.PopData(emailKey);
    calls := [cartId];
    o := match fetchCart(cartId)
         case None => Rejected
         case Some(cart) => Resolved(CartResult(cart, cartId, email));
  }

  /** The unit test's event: the cart id and the email are the single entries of `eVar3` and `eVar4`. */
  method ReturnsSampleCart(fetchCart: string -> Option<int>) returns (o: Outcome<int>, calls: seq<string>)
    requires fetchCart("n3cLIuSdlMjYuNWxamX1C8s9S0i2TRGD") == Some(123)
    ensures calls == ["n3cLIuSdlMjYuNWxamX1C8s9S0i2TRGD"]
    ensures o == Resolved(CartResult(123, "n3cLIuSdlMjYuNWxamX1C8s9S0i2TRGD", "user@domain.com"))
  {
    var dims := map["eVar3" := ["n3cLIuSdlMjYuNWxamX1C8s9S0i2TRGD"], "eVar4" := ["user@domain.com"]];
    var args := new GetCartArgs(Undefined, Some(Event(dims)), Some(Config("eVar3", "eVar4")), map[]);
    o, calls := GetCart(args, fetchCart);
  }
}
