/**
 * The send-event action: echo a webhook challenge, or screen a cart and an
 * email through an ordered chain of early exits and, only when every check
 * passes, authenticate against the messaging platform, map the cart and send
 * the transactional event.
 *
 * The two remote calls are parameters: `authenticate` maps a JWT payload to an
 * access token (None: the returned promise rejects), `send` maps a token, an
 * event id and an event body to the platform's response (None: it rejects).
 * What the action does with them is recorded in a trace of steps.
 */
module CartAbandonment {
  import opened Js
  import opened CampaignMapper

  /** The configuration entries the action and its mapper read. */
  datatype SendConfig = SendConfig(jwtPayload: Value, eventId: string, productPageUrl: string, productAssetBaseUrl: string)

  /** The configuration the mapper is constructed with: the same object, of which it reads two entries. */
  function MapperView(config: SendConfig): MapperConfig {
    MapperConfig(config.productPageUrl, config.productAssetBaseUrl)
  }

  /** Why a cart is skipped, in the order the checks run. */
  datatype Rejection = NoInput | EmptyCart | AlreadyOrdered | Inactive

  /** One effect of the accepted path, in the order it happens. */
  datatype Step =
    | Authenticate(payload: Value)
    | MapEvent(cart: Cart, email: Value)
    | SendEvent(token: string, eventId: string, body: TransactionalEvent)

  /** What the caller observes: the echoed input, nothing, a thrown TypeError, or the settled promise. */
  datatype SendOutcome = Echoed | Skipped(why: Rejection) | TypeError | Rejected | Resolved(response: Value)

  /** The cart has a product list and it is not empty. */
  predicate HasProducts(cart: Cart) {
    cart.products.Some? && |cart.products.value| != 0
  }

  /** `reserved_order_id` is truthy and not strictly equal to 0. */
  predicate OrderReserved(cart: Cart) {
    Truthy(cart.reservedOrderId) && cart.reservedOrderId != Num(0.0)
  }

  /**
   * The chain of early exits: None when the cart passes every check, otherwise
   * the reason of the first check it fails.
   */
  function Screen(cart: Option<Cart>, email: Value): (r: Option<Rejection>)
    ensures r.None? <==>
              && cart.Some? && Truthy(email)
              && HasProducts(cart.value)
              && !OrderReserved(cart.value)
              && Truthy(cart.value.isActive)
    ensures r == Some(NoInput) <==> cart.None? || !Truthy(email)
  {
    if cart.None? || !Truthy(email) then Some(NoInput)
    else if !HasProducts(cart.value) then Some(EmptyCart)
    else if OrderReserved(cart.value) then Some(AlreadyOrdered)
    else if !Truthy(cart.value.isActive) then Some(Inactive)
    else None
  }

  /** The checks in the order they run. */
  const Checks: seq<Rejection> := [NoInput, EmptyCart, AlreadyOrdered, Inactive]

  /** Whether the input passes the check that rejects with `why`, taken on its own. */
  predicate Passes(why: Rejection, cart: Option<Cart>, email: Value) {
    match why
    case NoInput => cart.Some? && Truthy(email)
    case EmptyCart => cart.Some? && HasProducts(cart.value)
    case AlreadyOrdered => cart.Some? && !OrderReserved(cart.value)
    case Inactive => cart.Some? && Truthy(cart.value.isActive)
  }

  /** The chain reports exactly the first check, in the order of `Checks`, that the input fails. */
  lemma ScreenReportsFirstFailedCheck(cart: Option<Cart>, email: Value)
    ensures Screen(cart, email) ==
              match FindIndex(Checks, (why: Rejection) => !Passes(why, cart, email))
              case None => None
              case Some(i) => Some(Checks[i])
  {
  }

  /**
   * The `!== 0` test adds nothing to the truthiness test: a cart is held back as
   * already ordered exactly when its `reserved_order_id` is truthy, so 0, null,
   * an absent id and "" never reject, while any other id, the string "0"
   * included, does.
   */
  lemma OrderReservedIsTruthiness(cart: Cart)
    ensures OrderReserved(cart) <==> Truthy(cart.reservedOrderId)
  {
  }

  /**
   * The accepted path: authenticate with the configured JWT payload, then map the
   * cart and email, then send the event with the token and the configured event
   * id; when authentication rejects, nothing is mapped or sent.
   */
  ghost predicate IsDelivery(
    config: SendConfig, cart: Cart, email: Value,
    authenticate: Value -> Option<string>,
    send: (string, string, TransactionalEvent) -> Option<Value>,
    o: SendOutcome, trace: seq<Step>)
  {
    match authenticate(config.jwtPayload)
    case None =>
      trace == [Authenticate(config.jwtPayload)] && o == Rejected
    case Some(token) =>
      && |trace| == 3
      && trace[0] == Authenticate(config.jwtPayload)
      && trace[1] == MapEvent(cart, email)
      && trace[2].SendEvent?
      && trace[2].token == token
      && trace[2].eventId == config.eventId
      && trace[2].body.email == email
      && IsMappedCart(MapperView(config), cart, trace[2].body.ctx)
      && o == match send(token, config.eventId, trace[2].body)
              case None => Rejected
              case Some(response) => Resolved(response)
  }

  /** Authenticates, maps and sends, each once and in that order. */
  method AuthenticateMapAndSend(
    config: SendConfig, cart: Cart, email: Value,
    authenticate: Value -> Option<string>,
    send: (string, string, TransactionalEvent) -> Option<Value>)
    returns (o: SendOutcome, trace: seq<Step>)
    requires cart.products.Some?
    ensures IsDelivery(config, cart, email, authenticate, send, o, trace)
    ensures o.Resolved? || o.Rejected?
  {
    trace := [Authenticate(config.jwtPayload)];
    var token := authenticate(config.jwtPayload);
    if token.None? {
      return Rejected, trace;
    }
    var body := Map(MapperView(config), cart, email);
    trace := trace + [MapEvent(cart, email), SendEvent(token.value, config.eventId, body)];
    var response := send(token.value, config.eventId, body);
    o := match response
         case None => Rejected
         case Some(r) => Resolved(r);
  }

  /** In a delivery, authentication comes first and each remote call happens at most once. */
  lemma DeliveryCallsEachOnce(
    config: SendConfig, cart: Cart, email: Value,
    authenticate: Value -> Option<string>,
    send: (string, string, TransactionalEvent) -> Option<Value>,
    o: SendOutcome, trace: seq<Step>)
    requires IsDelivery(config, cart, email, authenticate, send, o, trace)
    ensures trace != [] && trace[0] == Authenticate(config.jwtPayload)
    ensures forall i :: 0 < i < |trace| ==> !trace[i].Authenticate?
    ensures forall i, j :: 0 <= i < j < |trace| && trace[i].SendEvent? ==> !trace[j].SendEvent?
    ensures (exists i :: 0 <= i < |trace| && trace[i].SendEvent?) <==> authenticate(config.jwtPayload).Some?
  {
  }

  /** The input object of the action; keys other than the four it reads are kept in `extra`. */
  class SendArgs {
    var challenge: Value
    var cart: Option<Cart>
    var email: Value
    var config: Option<SendConfig>
    var extra: map<string, Value>

    /** The keys the action reads are not among the other keys. */
    ghost predicate Valid()
      reads this
    {
      "challenge" !in extra && "cart" !in extra && "email" !in extra && "config" !in extra
    }

    /** The keys the object has; a key whose value is undefined counts as absent. */
    function Keys(): set<string>
      reads this
    {
      (if challenge != Undefined then {"challenge"} else {})
      + (if cart.Some? then {"cart"} else {})
      + (if email != Undefined then {"email"} else {})
      + (if config.Some? then {"config"} else {})
      + extra.Keys
    }

    constructor(challenge: Value, cart: Option<Cart>, email: Value, config: Option<SendConfig>, extra: map<string, Value>)
      requires "challenge" !in extra && "cart" !in extra && "email" !in extra && "config" !in extra
      ensures Valid()
      ensures this.challenge == challenge && this.cart == cart && this.email == email
      ensures this.config == config && this.extra == extra
    {
      this.challenge := challenge;
      this.cart := cart;
      this.email := email;
      this.config := config;
      this.extra := extra;
    }

    /** `delete args.config`: the configuration key goes, every other key keeps its value. */
    method DeleteConfig()
      requires Valid()
      modifies this
      ensures Valid()
      ensures config.None?
      ensures challenge == old(challenge) && cart == old(cart) && email == old(email) && extra == old(extra)
      ensures Keys() == old(Keys()) - {"config"}
    {
      config := None;
    }
  }

  /**
   * The action. A challenge is echoed: the input object itself, with `config`
   * deleted. Otherwise the input object is left alone; a cart that fails a check
   * is skipped with no remote call; a cart that passes them all is delivered.
   */
  method CampaignCartAbandonment(
    args: SendArgs,
    authenticate: Value -> Option<string>,
    send: (string, string, TransactionalEvent) -> Option<Value>)
    returns (o: SendOutcome, trace: seq<Step>)
    requires args.Valid()
    modifies args
    ensures args.Valid()
    ensures Truthy(old(args.challenge)) ==>
              && o == Echoed && trace == []
              && args.config.None?
              && args.challenge == old(args.challenge) && args.cart == old(args.cart)
              && args.email == old(args.email) && args.extra == old(args.extra)
              && args.Keys() == old(args.Keys()) - {"config"}
    ensures !Truthy(old(args.challenge)) ==>
              && args.challenge == old(args.challenge) && args.cart == old(args.cart)
              && args.email == old(args.email) && args.config == old(args.config)
              && args.extra == old(args.extra)
    ensures !Truthy(old(args.challenge)) && Screen(args.cart, args.email).Some? ==>
              o == Skipped(Screen(args.cart, args.email).value) && trace == []
    ensures !Truthy(old(args.challenge)) && Screen(args.cart, args.email).None? && args.config.None? ==>
              o == TypeError && trace == []
    ensures !Truthy(old(args.challenge)) && Screen(args.cart, args.email).None? && args.config.Some? ==>
              IsDelivery(args.config.value, args.cart.value, args.email, authenticate, send, o, trace)
  {
    if Truthy(args.challenge) {
      args.DeleteConfig();
      return Echoed, [];
    }
    var rejection := Screen(args.cart, args.email);
    if rejection.Some? {
      return Skipped(rejection.value), [];
    }
    if args.config.None? {
      return TypeError, [];
    }
    o, trace := AuthenticateMapAndSend(args.config.value, args.cart.value, args.email, authenticate, send);
  }

  /** The unit test's challenge: the echo keeps `challenge` and `sample` and drops `config`. */
  method EchoesChallenge(authenticate: Value -> Option<string>, send: (string, string, TransactionalEvent) -> Option<Value>)
    returns (o: SendOutcome, trace: seq<Step>, keys: set<string>)
    ensures o == Echoed && trace == []
    ensures keys == {"challenge", "sample"}
  {
    var config := SendConfig(Undefined, "", "", "");
    var args := new SendArgs(Str("abc"), None, Undefined, Some(config), map["sample" := Str("test")]);
    o, trace := CampaignCartAbandonment(args, authenticate, send);
    keys := args.Keys();
  }
}
