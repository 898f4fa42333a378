/**
 * The storefront's static catalog: the nine snack packages, the metadata of
 * the three categories, and the two computations the pages make over them
 * (the category listing and the featured products of the landing page).
 *
 * Prices are whole numbers of XLM in every catalog entry, so they are `int`s.
 */
module Catalog {
  import opened Outcome

  datatype Category = Budget | Middle | Bulk

  /** The string a product's `category` field holds, and the route parameter that names it. */
  function CategoryKey(c: Category): string {
    match c
    case Budget => "budget"
    case Middle => "middle"
    case Bulk => "bulk"
  }

  function CategoryOfKey(key: string): Option<Category> {
    if key == "budget" then Some(Budget)
    else if key == "middle" then Some(Middle)
    else if key == "bulk" then Some(Bulk)
    else None
  }

  datatype Product = Product(
    id: string,
    name: string,
    description: string,
    price: int,
    category: Category,
    items: seq<string>,
    image: string)

  datatype CategoryInfo = CategoryInfo(title: string, description: string, priceRange: string)

  const PRODUCTS: seq<Product> := [
    Product("budget-a", "Quick Refresh Package", "Perfect for a quick snack break", 100, Budget,
            ["Sachet water", "Packet of biscuits (Shortcake/Digestive)"], "/images/packages/budget-a.jpg"),
    Product("budget-b", "Energy Boost Package", "Get energized with this combo", 200, Budget,
            ["Gala (beef roll)", "Soft drink (Coke/Pepsi/Fanta)"], "/images/packages/budget-b.jpg"),
    Product("budget-c", "Morning Starter Package", "Start your day right", 250, Budget,
            ["Small loaf of bread", "Sachet water", "Small butter spread"], "/images/packages/budget-c.jpg"),
    Product("middle-d", "Premium Snack Package", "Quality snacks for your break", 400, Middle,
            ["Vega milk", "Meat pie", "Bottled water"], "/images/packages/middle-d.jpg"),
    Product("middle-e", "Nutritious Combo", "Healthy and delicious", 600, Middle,
            ["Nutri milk", "Sausage roll", "Juice box"], "/images/packages/middle-e.jpg"),
    Product("middle-f", "Complete Meal Package", "Everything you need", 750, Middle,
            ["Yogurt drink", "Chicken roll", "Fresh fruit (banana/apple)"], "/images/packages/middle-f.jpg"),
    Product("bulk-g", "Drinks Party Package", "Perfect for your party", 5000, Bulk,
            ["50 bottles of soft drinks (mixed flavors)"], "/images/packages/bulk-g.jpg"),
    Product("bulk-h", "Mega Snacks Package", "Feed your entire event", 8000, Bulk,
            ["100 meat pies", "100 small chops"], "/images/packages/bulk-h.jpg"),
    Product("bulk-i", "Complete Event Package", "Everything for your event", 15000, Bulk,
            ["Cake", "200 drinks", "200 assorted snacks"], "/images/packages/bulk-i.jpg")
  ]

  /** The `CATEGORIES` record, one entry per category. */
  function CategoryInfoOf(c: Category): CategoryInfo {
    match c
    case Budget => CategoryInfo("Budget-Friendly Packages", "For students and quick, affordable snacks", "100-300 XLM")
    case Middle => CategoryInfo("Middle-Class Packages", "Better quality snacks and drinks", "400-800 XLM")
    case Bulk => CategoryInfo("Bulk/Event Packages", "For parties, meetings, and events", "5,000+ XLM")
  }

  /** The price range a category's label advertises: "100-300", "400-800", "5,000+". */
  predicate InAdvertisedRange(c: Category, price: int) {
    match c
    case Budget => 100 <= price <= 300
    case Middle => 400 <= price <= 800
    case Bulk => 5000 <= price
  }

  // ---------------------------------------------------------------- filtering

  /** `products.filter(p => p.category === key)`. */
  function FilterByCategory(products: seq<Product>, key: string): (r: seq<Product>)
    ensures |r| <= |products|
  {
    if products == [] then []
    else if CategoryKey(products[0].category) == key then [products[0]] + FilterByCategory(products[1..], key)
    else FilterByCategory(products[1..], key)
  }

  /** JavaScript's `s.slice(0, n)`: the first `n` elements, or all of them when there are fewer. */
  function Take(s: seq<Product>, n: nat): (r: seq<Product>)
    ensures |r| == if |s| <= n then |s| else n
    ensures r <= s
  {
    if |s| <= n then s else s[..n]
  }

  /** The landing page's featured list: the first two products of each category, budget first. */
  function FeaturedProducts(): seq<Product> {
    Take(FilterByCategory(PRODUCTS, "budget"), 2)
    + Take(FilterByCategory(PRODUCTS, "middle"), 2)
    + Take(FilterByCategory(PRODUCTS, "bulk"), 2)
  }

  // ---------------------------------------------------------------- the category page

  /** `CATEGORIES[key]` as an own-property lookup: an entry exactly for the three category keys. */
  function LookupCategory(key: string): Option<CategoryInfo> {
    match CategoryOfKey(key)
    case Some(c) => Some(CategoryInfoOf(c))
    case None => None
  }

  /** What the category route shows: an error page, or a category's header and product grid. */
  datatype CategoryPage = NotFound | Listing(info: Option<CategoryInfo>, products: seq<Product>)

  /** The category route with its not-found test made on own properties of `CATEGORIES`. */
  function CategoryPageView(key: string): CategoryPage {
    match LookupCategory(key)
    case None => NotFound
    case Some(info) => Listing(Some(info), FilterByCategory(PRODUCTS, key))
  }

  /** The names every plain JavaScript object inherits from `Object.prototype`. */
  const OBJECT_PROTOTYPE_MEMBERS: set<string> := {
    "constructor", "hasOwnProperty", "isPrototypeOf", "propertyIsEnumerable",
    "toString", "toLocaleString", "valueOf", "__proto__",
    "__defineGetter__", "__defineSetter__", "__lookupGetter__", "__lookupSetter__"
  }

  /** What `CATEGORIES[key]` evaluates to in JavaScript. */
  datatype PropertyValue = OwnEntry(info: CategoryInfo) | InheritedMember(name: string) | Undefined

  /** `CATEGORIES[key]` as JavaScript evaluates it: own entries first, then the prototype chain. */
  function LookupCategoryAsWritten(key: string): PropertyValue {
    match CategoryOfKey(key)
    case Some(c) => OwnEntry(CategoryInfoOf(c))
    case None => if key in OBJECT_PROTOTYPE_MEMBERS then InheritedMember(key) else Undefined
  }

  /**
   * The category route as written: "not found" only when `CATEGORIES[key]` is
   * falsy. Every inherited member is a function or an object, hence truthy,
   * and has no `title`, so the page renders an untitled listing.
   */
  function CategoryPageAsWritten(key: string): CategoryPage {
    match LookupCategoryAsWritten(key)
    case Undefined => NotFound
    case InheritedMember(_) => Listing(None, FilterByCategory(PRODUCTS, key))
    case OwnEntry(info) => Listing(Some(info), FilterByCategory(PRODUCTS, key))
  }
}
