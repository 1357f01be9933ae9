/**
 * The cart mapper: turns a commerce cart (line items, totals and the product
 * records fetched for them) and an email address into the body of a
 * transactional event, `{email, ctx}`.
 */
module CampaignMapper {
  import opened Js

  /** A cart line item; name, price and quantity are only copied into the event. */
  datatype LineItem = LineItem(sku: string, name: Value, price: Value, qty: Value)

  /** A custom attribute of a product; its value may be missing. */
  datatype Attribute = Attribute(attributeCode: string, value: Option<string>)

  /** A media gallery entry; its file path may be missing. */
  datatype MediaEntry = MediaEntry(file: Option<string>)

  /** A product record; the media gallery may be missing altogether. */
  datatype Product = Product(sku: string, customAttributes: seq<Attribute>, mediaGalleryEntries: Option<seq<MediaEntry>>)

  datatype Totals = Totals(grandTotal: Value, baseCurrencyCode: Value)

  /**
   * A cart as the commerce client returns it, with the product records attached
   * under `products` (which may be missing on a cart built elsewhere).
   */
  datatype Cart = Cart(
    id: Value,
    isActive: Value,
    reservedOrderId: Value,
    items: seq<LineItem>,
    totals: Totals,
    products: Option<seq<Product>>)

  /** The two configuration entries the mapper reads. */
  datatype MapperConfig = MapperConfig(productPageUrl: string, productAssetBaseUrl: string)

  /** One product of the transactional event. */
  datatype CampaignProduct = CampaignProduct(
    sku: string,
    slug: Option<string>,
    name: Value,
    path: string,
    price: Value,
    quantity: Value,
    image: string)

  /** The event context; a None product is the undefined slot of an unmatched line item. */
  datatype CampaignCart = CampaignCart(total: Value, currency: Value, cartId: Value, products: seq<Option<CampaignProduct>>)

  datatype TransactionalEvent = TransactionalEvent(email: Value, ctx: CampaignCart)

  const SlugPlaceholder: string := "{{slug}}"
  const UrlKey: string := "url_key"

  /**
   * The product's URL slug: the value of its first custom attribute whose code
   * is `url_key`; undefined when there is no such attribute or it has no value.
   */
  function Slug(product: Product): (slug: Option<string>)
    ensures (forall i :: 0 <= i < |product.customAttributes| ==> product.customAttributes[i].attributeCode != UrlKey)
              ==> slug.None?
    ensures forall i ::
              && 0 <= i < |product.customAttributes|
              && product.customAttributes[i].attributeCode == UrlKey
              && (forall k :: 0 <= k < i ==> product.customAttributes[k].attributeCode != UrlKey)
              ==> slug == product.customAttributes[i].value
  {
    match FindIndex(product.customAttributes, (a: Attribute) => a.attributeCode == UrlKey)
    case None => None
    case Some(i) => product.customAttributes[i].value
  }

  /** The product page path: the first `{{slug}}` of the template replaced by the slug, or by "undefined". */
  function ProductPath(config: MapperConfig, slug: Option<string>): string {
    ReplaceFirst(config.productPageUrl, SlugPlaceholder, Show(slug))
  }

  /** A template without `{{slug}}` is the path of every product, whatever its slug. */
  lemma PathWithoutPlaceholder(config: MapperConfig, slug: Option<string>)
    requires forall k :: 0 <= k <= |config.productPageUrl| ==> !OccursAt(config.productPageUrl, SlugPlaceholder, k)
    ensures ProductPath(config, slug) == config.productPageUrl
  {
  }

  /** The image URL: the asset base URL followed by the first media file, or by "undefined". */
  function ImageUrl(config: MapperConfig, product: Product): string {
    var image: Option<string> :=
      match product.mediaGalleryEntries
      case Some(entries) => if |entries| > 0 then entries[0].file else None
      case None => None;
    config.productAssetBaseUrl + Show(image)
  }

  /**
   * The image URL names the first media entry's file when the gallery is
   * present and not empty and that entry has a file; in every other case the
   * base URL is followed by the text "undefined".
   */
  lemma ImageOfFirstMediaFile(config: MapperConfig, product: Product)
    ensures product.mediaGalleryEntries.Some? && |product.mediaGalleryEntries.value| > 0
              && product.mediaGalleryEntries.value[0].file.Some? ==>
              ImageUrl(config, product) == config.productAssetBaseUrl + product.mediaGalleryEntries.value[0].file.value
    ensures !(product.mediaGalleryEntries.Some? && |product.mediaGalleryEntries.value| > 0
              && product.mediaGalleryEntries.value[0].file.Some?) ==>
              ImageUrl(config, product) == config.productAssetBaseUrl + "undefined"
  {
  }

  /** `products[j]` is the first product whose SKU is `sku`. */
  predicate FirstWithSku(products: seq<Product>, sku: string, j: int) {
    && 0 <= j < |products|
    && products[j].sku == sku
    && forall k :: 0 <= k < j ==> products[k].sku != sku
  }

  /**
   * Maps one line item: undefined when no product has the item's SKU; otherwise
   * SKU, name, price and quantity come from the line item, and slug, path and
   * image from the first product with that SKU.
   */
  function MapProduct(config: MapperConfig, item: LineItem, products: seq<Product>): (r: Option<CampaignProduct>)
    ensures r.None? <==> forall j :: 0 <= j < |products| ==> products[j].sku != item.sku
    ensures forall j :: FirstWithSku(products, item.sku, j) ==>
              r == Some(CampaignProduct(
                     item.sku,
                     Slug(products[j]),
                     item.name,
                     ProductPath(config, Slug(products[j])),
                     item.price,
                     item.qty,
                     ImageUrl(config, products[j])))
  {
    match FindIndex(products, (p: Product) => item.sku == p.sku)
    case None => None
    case Some(j) =>
      assert forall j' :: FirstWithSku(products, item.sku, j') ==> j' == j;
      var product := products[j];
      var slug := Slug(product);
      Some(CampaignProduct(
        item.sku,
        slug,
        item.name,
        ProductPath(config, slug),
        item.price,
        item.qty,
        ImageUrl(config, product)))
  }

  /** The product records of the cart; a cart without them maps only when it has no items. */
  function Catalog(cart: Cart): seq<Product> {
    match cart.products
    case Some(products) => products
    case None => []
  }

  /**
   * `c` is the mapping of `cart`: total, currency and cart id from the cart, and
   * one product per line item, in order, the i-th being the mapping of the i-th item.
   */
  predicate IsMappedCart(config: MapperConfig, cart: Cart, c: CampaignCart) {
    && c.total == cart.totals.grandTotal
    && c.currency == cart.totals.baseCurrencyCode
    && c.cartId == cart.id
    && |c.products| == |cart.items|
    && forall i :: 0 <= i < |cart.items| ==> c.products[i] == MapProduct(config, cart.items[i], Catalog(cart))
  }

  /** Builds the event context, pushing one mapped product per line item. */
  method MapCart(config: MapperConfig, cart: Cart) returns (c: CampaignCart)
    requires cart.products.Some? || cart.items == []
    ensures IsMappedCart(config, cart, c)
  {
    c := CampaignCart(cart.totals.grandTotal, cart.totals.baseCurrencyCode, cart.id, []);
    for i := 0 to |cart.items|
      invariant c.total == cart.totals.grandTotal
      invariant c.currency == cart.totals.baseCurrencyCode
      invariant c.cartId == cart.id
      invariant |c.products| == i
      invariant forall k :: 0 <= k < i ==> c.products[k] == MapProduct(config, cart.items[k], Catalog(cart))
    {
      var product := MapProduct(config, cart.items[i], cart.products.value);
      c := c.(products := c.products + [product]);
    }
  }

  /** The transactional event body: the email, unchanged, and the mapped cart as context. */
  method Map(config: MapperConfig, cart: Cart, email: Value) returns (event: TransactionalEvent)
    requires cart.products.Some? || cart.items == []
    ensures event.email == email
    ensures IsMappedCart(config, cart, event.ctx)
  {
    var ctx := MapCart(config, cart);
    event := TransactionalEvent(email, ctx);
  }

  /** The mapping of a cart is determined by the cart: two mappings of it are equal. */
  lemma MappedCartIsUnique(config: MapperConfig, cart: Cart, c1: CampaignCart, c2: CampaignCart)
    requires IsMappedCart(config, cart, c1) && IsMappedCart(config, cart, c2)
    ensures c1 == c2
  {
    assert c1.products == c2.products;
  }

  /** A line item whose SKU matches no product leaves an undefined slot at its own index; nothing shifts. */
  lemma UnmatchedItemKeepsItsSlot(config: MapperConfig, cart: Cart, c: CampaignCart, i: int)
    requires IsMappedCart(config, cart, c)
    requires 0 <= i < |cart.items|
    requires forall j :: 0 <= j < |Catalog(cart)| ==> Catalog(cart)[j].sku != cart.items[i].sku
    ensures |c.products| == |cart.items|
    ensures c.products[i] == None
  {
  }

  /** With a slug free of `$`, the path is the template with its first `{{slug}}` replaced by exactly that slug. */
  lemma PathSubstitutesSlug(config: MapperConfig, pre: string, post: string, slug: string)
    requires config.productPageUrl == pre + SlugPlaceholder + post
    requires forall k :: 0 <= k < |pre| ==> !OccursAt(config.productPageUrl, SlugPlaceholder, k)
    requires '$' !in slug
    ensures ProductPath(config, Some(slug)) == pre + slug + post
  {
    ReplaceFirstOccurrence(pre, SlugPlaceholder, post, slug);
  }

  /** A missing slug puts the literal text "undefined" where `{{slug}}` was. */
  lemma PathOfMissingSlug(config: MapperConfig, pre: string, post: string)
    requires config.productPageUrl == pre + SlugPlaceholder + post
    requires forall k :: 0 <= k < |pre| ==> !OccursAt(config.productPageUrl, SlugPlaceholder, k)
    ensures ProductPath(config, None) == pre + "undefined" + post
  {
    ReplaceFirstOccurrence(pre, SlugPlaceholder, post, "undefined");
  }

  /** The line item, product record and configuration of the mapper's unit test. */
  const SampleItem := LineItem("meskwielt-Green-M", Str("El Gordo Down Jacket"), Num(119.0), Num(1.0))
  const SampleProduct := Product(
    "meskwielt-Green-M",
    [Attribute("url_key", Some("meskwielt-green-m"))],
    Some([MediaEntry(Some("/e/l/el_gordo_green_2.jpg"))]))
  const SampleConfig := MapperConfig(
    "http://localhost/product/{{slug}}.html",
    "http://my.magentosite.cloud/media/catalog/product")

  /** The sample product's slug is the value of its `url_key` attribute. */
  lemma SampleSlug(product: Product)
    requires product == SampleProduct
    ensures Slug(product) == Some("meskwielt-green-m")
  {
    assert product.customAttributes[0].attributeCode == UrlKey;
  }

  /** The sample template's `{{slug}}` is replaced by the sample slug. */
  lemma SamplePath(config: MapperConfig, slug: string)
    requires config == SampleConfig && slug == "meskwielt-green-m"
    ensures ProductPath(config, Some(slug)) == "http://localhost/product/" + slug + ".html"
  {
    var pre, post := "http://localhost/product/", ".html";
    assert config.productPageUrl == pre + SlugPlaceholder + post;
    NoOccurrenceIn(pre, SlugPlaceholder, post);
    PathSubstitutesSlug(config, pre, post, slug);
  }

  /** The unit test's product maps to the values the test expects (path and image written as the parts they are built from). */
  lemma MapsSampleProduct(config: MapperConfig, item: LineItem, product: Product)
    requires config == SampleConfig && item == SampleItem && product == SampleProduct
    ensures MapProduct(config, item, [product]) == Some(CampaignProduct(
              "meskwielt-Green-M",
              Some("meskwielt-green-m"),
              Str("El Gordo Down Jacket"),
              "http://localhost/product/" + "meskwielt-green-m" + ".html",
              Num(119.0),
              Num(1.0),
              "http://my.magentosite.cloud/media/catalog/product" + "/e/l/el_gordo_green_2.jpg"))
  {
    assert FirstWithSku([product], item.sku, 0);
    SampleSlug(product);
    SamplePath(config, "meskwielt-green-m");
    assert ImageUrl(config, product) == config.productAssetBaseUrl + "/e/l/el_gordo_green_2.jpg";
  }
}
