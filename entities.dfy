/**
 * The record shapes of the portal's collections, after types/index.ts.
 * Dates are millisecond timestamps; JavaScript numbers that hold money or
 * coordinates are reals, counters and priorities are integers. A field the
 * data layer reads with a fallback (`data().views || 0`) is optional here,
 * because a stored document may lack it.
 */
module Entities {
  import opened Wrappers
  import opened Documents

  /** A `Date` or server timestamp, in milliseconds since the epoch. */
  type Timestamp = int

  datatype Category = Category(
    name: string,
    slug: string,
    description: Option<string>,
    color: string,
    icon: Option<string>,
    parentId: Option<string>,
    createdAt: Timestamp,
    updatedAt: Timestamp)

  datatype Author = Author(id: string, name: string, avatar: Option<string>)

  datatype Seo = Seo(metaTitle: Option<string>, metaDescription: Option<string>, metaKeywords: Option<string>)

  datatype ArticleStatus = Draft | Published | Archived

  /** An article; its embedded category carries the category's id, as a lookup returns it. */
  datatype Article = Article(
    title: string,
    slug: string,
    excerpt: string,
    content: string,
    featuredImage: Option<string>,
    author: Author,
    category: Doc<Category>,
    tags: seq<string>,
    status: ArticleStatus,
    featured: bool,
    views: Option<int>,
    likes: int,
    createdAt: Timestamp,
    updatedAt: Timestamp,
    publishedAt: Option<Timestamp>,
    seo: Seo)

  datatype Currency = PLN | EUR | USD

  datatype Coordinates = Coordinates(lat: real, lng: real)

  datatype Location = Location(city: string, region: string, coordinates: Option<Coordinates>)

  datatype Contact = Contact(name: string, phone: Option<string>, email: Option<string>)

  datatype Condition = New | Used | Refurbished

  datatype Features = Features(condition: Option<Condition>, brand: Option<string>, model: Option<string>, year: Option<int>)

  datatype ClassifiedStatus = Active | Sold | Expired | Pending

  datatype Classified = Classified(
    title: string,
    description: string,
    price: Option<real>,
    currency: Currency,
    category: Doc<Category>,
    subcategory: Option<string>,
    location: Location,
    images: seq<string>,
    contact: Contact,
    features: Features,
    status: ClassifiedStatus,
    featured: bool,
    premium: bool,
    views: Option<int>,
    favorites: int,
    createdAt: Timestamp,
    updatedAt: Timestamp,
    expiresAt: Timestamp,
    userId: string)

  /** `'hero-slider'`, `'sidebar'`, `'content'` and `'footer'`. */
  datatype AdPosition = HeroSliderSlot | SidebarSlot | ContentSlot | FooterSlot

  /** The advertisement's `type`: `'banner'`, `'text'`, `'video'` and `'carousel'`. */
  datatype AdKind = BannerAd | TextAd | VideoAd | CarouselAd

  /** `'active'`, `'inactive'` and `'expired'`. */
  datatype AdStatus = AdActive | AdInactive | AdExpired

  datatype TargetAudience = TargetAudience(
    ageMin: Option<int>,
    ageMax: Option<int>,
    location: Option<seq<string>>,
    interests: Option<seq<string>>)

  /** An advertisement; the source's `type` field is `kind` here. */
  datatype Advertisement = Advertisement(
    title: string,
    description: string,
    imageUrl: Option<string>,
    linkUrl: string,
    position: AdPosition,
    kind: AdKind,
    status: AdStatus,
    priority: int,
    startDate: Timestamp,
    endDate: Timestamp,
    clicks: Option<int>,
    impressions: Option<int>,
    budget: Option<real>,
    costPerClick: Option<real>,
    targetAudience: Option<TargetAudience>,
    createdAt: Timestamp,
    updatedAt: Timestamp)

  /** `'active'` and `'unsubscribed'`. */
  datatype SubscriptionStatus = ActiveSubscription | Unsubscribed

  datatype Frequency = Daily | Weekly | Monthly

  /**
   * Newsletter preferences as stored: `subscribe` stores the caller's
   * `Partial<preferences>` object as given, so either field may be missing.
   */
  datatype Preferences = Preferences(categories: Option<seq<string>>, frequency: Option<Frequency>)

  /** A record of the `newsletter` collection (the `Newsletter` interface). */
  datatype Subscription = Subscription(
    email: string,
    status: SubscriptionStatus,
    preferences: Preferences,
    createdAt: Timestamp,
    updatedAt: Timestamp)

  /** A counter as the data layer reads it: `value || 0`. */
  function CounterValue(c: Option<int>): int
  {
    match c
    case Some(v) => v
    case None => 0
  }
}
