# Cart abandonment actions: a Dafny model

This project models the logic of two serverless actions that connect a commerce
platform, an analytics event stream and a marketing platform's transactional
messaging API:

- **Cart mapper** (`campaign_mapper.dfy`, module `CampaignMapper`). It turns a
  commerce cart (line items, totals, product records) and an email into a
  transactional-event body `{email, ctx}`. Each line item is looked up by SKU
  (first match). The slug comes from the `url_key` custom attribute. The product
  path substitutes the slug into the page-URL template. The image URL is the
  asset base URL followed by the first media file. An unmatched line item leaves
  an undefined slot in the product list; it is not dropped.
- **Send-event action** (`cart_abandonment.dfy`, module `CartAbandonment`). A
  webhook challenge is echoed back with `config` deleted. Otherwise the checks
  run in this order: missing cart or email, empty product list, reserved order,
  inactive cart. The first check that fails decides, and the action returns
  nothing. Only a cart that passes all of them is sent: authenticate, map, send.
- **Get-cart action** (`get_cart.dfy`, module `GetCart`). A challenge is echoed the
  same way. Otherwise the event must be present, and so must the cart-id and
  email dimensions with non-empty data. The last entry of each data sequence is
  popped in place. The commerce client is then called once with the cart id.
- **JavaScript semantics** (`js.dfy`, module `Js`). This module holds the parts of
  JavaScript that the code relies on:
  - truthiness;
  - `Array.prototype.find`;
  - `String.prototype.replace` with a string pattern, including the `$$`, `$&`,
    `` $` `` and `$'` replacement patterns;
  - the text `"undefined"` that an undefined value becomes inside a string.

The remote services are function parameters that return `Option`, where `None`
stands for a rejected promise:

- the marketing platform's `authenticate` and `sendTransactionalEvent`;
- the commerce client's `getCart`.

Each action returns what it did with them: a trace of steps for the send-event
action, and the list of cart ids it fetched for the get-cart action. That is how
"no call on rejection" and "each call exactly once" are stated. The action
inputs are classes, because `delete args.config` changes the caller's object in
place. Likewise, popping a dimension's data reassigns the event held by the
input object.

The inactive-cart check `!args.cart.is_active` rejects a cart whose flag is
absent, `0`, `""` or `null`, and not only one whose flag is `false`; `Screen`
does the same. The unit tests exercise only `false`.

## Model

| member | source | states |
|---|---|---|
| `Js.FindIndex` | runtime/CampaignMapper.js:29-34 | `find` picks the first element that satisfies the predicate: it satisfies it and no earlier element does. The result is None exactly when no element does. |
| `Js.IndexOf` | runtime/CampaignMapper.js:48 | The position `replace` acts on is an occurrence of the pattern, and no occurrence comes before it. The result is None exactly when the pattern does not occur. |
| `Js.SubstitutionIsLiteral` | runtime/CampaignMapper.js:48 | A replacement text containing no `$` is inserted by `replace` exactly as given. |
| `Js.ReplaceFirstWithoutMatch` | runtime/CampaignMapper.js:48 | A template without the pattern comes back from `replace` unchanged. |
| `Js.ReplaceFirstAt` | runtime/CampaignMapper.js:48 | `replace` with a string pattern acts on the first occurrence only. If `pat` occurs at `i` and at no earlier position, the text before `i` and the text after that occurrence are kept, and the occurrence becomes the expansion of `rep`. |
| `Js.ReplaceFirstOccurrence` | runtime/CampaignMapper.js:48 | Only the first occurrence is replaced. If the pattern does not start inside `pre` and `rep` has no `$`, then `pre + pat + post` becomes `pre + rep + post`. |
| `CampaignMapper.Slug` | runtime/CampaignMapper.js:34-37 | The slug is the value of the first custom attribute whose code is `url_key`. It is undefined when no attribute has that code. |
| `CampaignMapper.MapProduct` | runtime/CampaignMapper.js:28-53 | The result is undefined exactly when no product has the item's SKU. Otherwise it is built from the first product with that SKU. `sku`, `name`, `price` and `quantity` come from the line item. `slug`, `path` and `image` come from that product. |
| `CampaignMapper.MapCart` | runtime/CampaignMapper.js:55-69 | `total`, `currency` and `cartId` are the cart's grand total, base currency code and id. There is one product per line item, in order, and product i is the mapping of item i. |
| `CampaignMapper.Map` | runtime/CampaignMapper.js:78-85 | The event's `email` is the given email, unchanged. Its `ctx` is the mapped cart. |
| `CampaignMapper.MappedCartIsUnique` | runtime/CampaignMapper.js:63-66 | The mapped cart is determined by the cart and the configuration: any two mappings of one cart are equal. |
| `CampaignMapper.UnmatchedItemKeepsItsSlot` | runtime/CampaignMapper.js:63-66 | A line item whose SKU matches no product gets an undefined slot at its own index, and the list keeps the length of the item list. |
| `CampaignMapper.PathSubstitutesSlug` | runtime/CampaignMapper.js:48 | For a template `pre + "{{slug}}" + post` where no `{{slug}}` starts inside `pre`, the path is `pre + slug + post` (for a slug without `$`). |
| `CampaignMapper.PathWithoutPlaceholder` | runtime/CampaignMapper.js:48 | A page-URL template without `{{slug}}` is the path of every product, whatever its slug. |
| `CampaignMapper.ImageOfFirstMediaFile` | runtime/CampaignMapper.js:39-51 | If the media gallery is present and not empty and its first entry has a file, the image URL is the asset base URL followed by that file. Otherwise it is the base URL followed by the text `undefined`. |
| `CampaignMapper.PathOfMissingSlug` | runtime/CampaignMapper.js:48 | A missing slug puts the literal text `undefined` where `{{slug}}` was. |
| `CampaignMapper.MapsSampleProduct` | runtime/test/CampaignMapperTest.js:82-96 | The unit test's product maps to the SKU, slug, name, path, price, quantity and image URL that the test expects. |
| `CartAbandonment.Screen` | runtime/campaignCartAbandonment.js:37-59 | A cart is accepted exactly when all of these hold: cart and email are present, the product list is non-empty, no order is reserved, and the cart is active (a falsy or absent `is_active` rejects). A missing cart or a falsy email rejects with NoInput, whatever else holds. |
| `CartAbandonment.ScreenReportsFirstFailedCheck` | runtime/campaignCartAbandonment.js:37-59 | The outcome is the first check, in the fixed order NoInput, EmptyCart, AlreadyOrdered, Inactive, that the input fails. If it fails none, the cart is accepted. |
| `CartAbandonment.OrderReservedIsTruthiness` | runtime/campaignCartAbandonment.js:50 | A reserved order rejects exactly when `reserved_order_id` is truthy. So 0 and an absent id never reject. |
| `CartAbandonment.AuthenticateMapAndSend` | runtime/campaignCartAbandonment.js:61-66 | The path taken once every check passes. It authenticates once with `config.jwtPayload`. If that rejects, nothing else happens. Otherwise it maps once with `(cart, email)` and sends once with the returned token, `config.eventId` and the mapped body. The action settles as the send does. |
| `CartAbandonment.DeliveryCallsEachOnce` | runtime/campaignCartAbandonment.js:61-66 | Authentication is the first step and is never repeated. At most one event is sent, and one is sent exactly when authentication succeeds. |
| `CartAbandonment.SendArgs.DeleteConfig` | runtime/campaignCartAbandonment.js:33 | `config` is removed; every other key keeps its value. |
| `CartAbandonment.EchoesChallenge` | runtime/test/campaignCartAbandonmentTest.js:41-53 | The unit test's challenge input `{config, challenge: "abc", sample}` is echoed. No remote call is made, and the object keeps exactly the keys `challenge` and `sample`. |
| `CartAbandonment.CampaignCartAbandonment` | runtime/campaignCartAbandonment.js:29-68 | A challenge echoes the input without `config` and makes no call. A rejected cart yields nothing and makes no call, and the input is left unchanged. A missing config after the checks throws before any call. An accepted cart is delivered as `AuthenticateMapAndSend` states. |
| `GetCart.Extract` | runtime/getCart.js:42-56 | It succeeds exactly when both dimensions exist with data. When both names are the same, that one sequence needs two entries. For distinct names, the cart id and the email are the last entries of their sequences, and each is removed. For one shared name, the cart id is the last entry, the email is the second-to-last entry of the original sequence, and both are removed. An email rejection still leaves the cart-id data shortened. Other dimensions are untouched. |
| `GetCart.GetCartArgs.DeleteConfig` | runtime/getCart.js:30 | `config` is removed; every other key keeps its value. |
| `GetCart.GetCartArgs.PopData` | runtime/getCart.js:48 | `pop()` returns the last entry of the dimension's data and removes it from the event in place. |
| `GetCart.ReturnsSampleCart` | runtime/test/getCartTest.js:105-113 | The unit test's event, with the cart id in `eVar3` and the email in `eVar4`, fetches that cart id once. The result is `{cart, cartId, email}` with the values the test expects. |
| `GetCart.GetCart` | runtime/getCart.js:26-67 | A challenge echoes the input without `config`. With no event, the result is nothing. Otherwise the dimensions are checked and popped in place as `Extract` states. The client is called exactly once, with the cart id, and only when both entries were found. The result is `{cart, cartId, email}`, with `cart` the client's answer. |

## Left out

- The commerce client (`runtime/MagentoClient.js`) is not part of this model: its three kinds of HTTP GET and its `Promise.all` fan-out. Its `getCart` is the parameter `fetchCart` of `GetCart.GetCart`.
- The marketing client (`runtime/CampaignClient.js`) is not part of this model: JWT signing and verification (RS256) are foreign cryptography, and the token exchange and event POST are HTTP calls. `authenticate` and `sendTransactionalEvent` are the parameters `authenticate` and `send`.
- Promises are reduced to the value they settle with (`Resolved`) or to `Rejected`; asynchrony and timing are not modelled.
- Logging with `console.log` is not modelled.
- The event's nested path down to the hit-summary dimensions (runtime/getCart.js:40) is assumed to exist, because `Event` holds the dimensions directly. A missing intermediate key, or a dimension without a `data` array, throws in JavaScript and is not modelled.
- Carts are typed records: `items`, `totals`, `custom_attributes` and the SKUs are present with the expected shapes. The TypeErrors that malformed carts raise are not modelled. A missing configuration object is modelled, as the `TypeError` outcome.
- `CampaignMapper.MapCart` and `CampaignMapper.Map` require the product list to be present when the cart has items, where JavaScript would throw. The one caller checks this first.
- `CartAbandonment.AuthenticateMapAndSend` requires the product list to be present. The chain of checks before it guarantees that.
- JavaScript numbers are modelled as reals; NaN and the infinities are not modelled (NaN is falsy).
- In `Keys`, a key whose value is `undefined` counts as absent.
- One data array shared by two dimensions with different names is not modelled. Such aliasing cannot come out of a parsed JSON event. Two configuration names that are equal are modelled: that one sequence is popped twice.
- The challenge echo returns the input object itself. The model returns `Echoed`, and the caller still holds the changed object.
