/**
 * The write side of lib/firestore.ts: the create, update, delete, counter
 * and newsletter services, as methods of one `Firestore` object whose fields
 * are the collections. `serverTimestamp()` is the `now` parameter and the id
 * `addDoc` generates is the `id` parameter, which the caller guarantees fresh.
 * Each state change is also given as a function of the old collection,
 * so the properties of repeated and combined calls are stated as lemmas.
 */
module Store {
  import opened Wrappers
  import opened Text
  import opened Documents
  import opened Entities

  /** Why a write is rejected. */
  datatype WriteError =
    | NotFound           // `updateDoc` on a document that does not exist
    | AlreadySubscribed  // `subscribe` with an email some record already has

  datatype Outcome = Ok | Failed(error: WriteError)

  // ---------------------------------------------------------------------
  // Partial updates

  /** `Partial<Article>` without `id` and `updatedAt`, which the update always overwrites. */
  datatype ArticlePatch = ArticlePatch(
    title: Option<string>,
    slug: Option<string>,
    excerpt: Option<string>,
    content: Option<string>,
    featuredImage: Option<string>,
    author: Option<Author>,
    category: Option<Doc<Category>>,
    tags: Option<seq<string>>,
    status: Option<ArticleStatus>,
    featured: Option<bool>,
    views: Option<int>,
    likes: Option<int>,
    createdAt: Option<Timestamp>,
    publishedAt: Option<Timestamp>,
    seo: Option<Seo>)

  const NoArticleChanges := ArticlePatch(None, None, None, None, None, None, None, None, None, None,
                                         None, None, None, None, None)

  /** A given optional field replaces the stored one; an absent one keeps it. */
  function Overwrite<X>(given: Option<X>, stored: Option<X>): Option<X>
  {
    if given.Some? then given else stored
  }

  /** `updateDoc(ref, { ...updates, updatedAt: serverTimestamp() })` on an article. */
  function PatchArticle(a: Article, p: ArticlePatch, now: Timestamp): (r: Article)
    ensures r.updatedAt == now
  {
    Article(
      p.title.GetOr(a.title),
      p.slug.GetOr(a.slug),
      p.excerpt.GetOr(a.excerpt),
      p.content.GetOr(a.content),
      Overwrite(p.featuredImage, a.featuredImage),
      p.author.GetOr(a.author),
      p.category.GetOr(a.category),
      p.tags.GetOr(a.tags),
      p.status.GetOr(a.status),
      p.featured.GetOr(a.featured),
      Overwrite(p.views, a.views),
      p.likes.GetOr(a.likes),
      p.createdAt.GetOr(a.createdAt),
      now,
      Overwrite(p.publishedAt, a.publishedAt),
      p.seo.GetOr(a.seo))
  }

  /** What `updateDoc` merges: each field the update names replaces the stored one, each other field stays. */
  lemma PatchArticleFields(a: Article, p: ArticlePatch, now: Timestamp)
    ensures p.title.Some? ==> PatchArticle(a, p, now).title == p.title.value
    ensures p.title.None? ==> PatchArticle(a, p, now).title == a.title
    ensures p.slug.Some? ==> PatchArticle(a, p, now).slug == p.slug.value
    ensures p.slug.None? ==> PatchArticle(a, p, now).slug == a.slug
    ensures p.excerpt.Some? ==> PatchArticle(a, p, now).excerpt == p.excerpt.value
    ensures p.excerpt.None? ==> PatchArticle(a, p, now).excerpt == a.excerpt
    ensures p.content.Some? ==> PatchArticle(a, p, now).content == p.content.value
    ensures p.content.None? ==> PatchArticle(a, p, now).content == a.content
    ensures p.featuredImage.Some? ==> PatchArticle(a, p, now).featuredImage == p.featuredImage
    ensures p.featuredImage.None? ==> PatchArticle(a, p, now).featuredImage == a.featuredImage
    ensures p.author.Some? ==> PatchArticle(a, p, now).author == p.author.value
    ensures p.author.None? ==> PatchArticle(a, p, now).author == a.author
    ensures p.category.Some? ==> PatchArticle(a, p, now).category == p.category.value
    ensures p.category.None? ==> PatchArticle(a, p, now).category == a.category
    ensures p.tags.Some? ==> PatchArticle(a, p, now).tags == p.tags.value
    ensures p.tags.None? ==> PatchArticle(a, p, now).tags == a.tags
    ensures p.status.Some? ==> PatchArticle(a, p, now).status == p.status.value
    ensures p.status.None? ==> PatchArticle(a, p, now).status == a.status
    ensures p.featured.Some? ==> PatchArticle(a, p, now).featured == p.featured.value
    ensures p.featured.None? ==> PatchArticle(a, p, now).featured == a.featured
    ensures p.views.Some? ==> PatchArticle(a, p, now).views == p.views
    ensures p.views.None? ==> PatchArticle(a, p, now).views == a.views
    ensures p.likes.Some? ==> PatchArticle(a, p, now).likes == p.likes.value
    ensures p.likes.None? ==> PatchArticle(a, p, now).likes == a.likes
    ensures p.createdAt.Some? ==> PatchArticle(a, p, now).createdAt == p.createdAt.value
    ensures p.createdAt.None? ==> PatchArticle(a, p, now).createdAt == a.createdAt
    ensures p.publishedAt.Some? ==> PatchArticle(a, p, now).publishedAt == p.publishedAt
    ensures p.publishedAt.None? ==> PatchArticle(a, p, now).publishedAt == a.publishedAt
    ensures p.seo.Some? ==> PatchArticle(a, p, now).seo == p.seo.value
    ensures p.seo.None? ==> PatchArticle(a, p, now).seo == a.seo
  {
  }

  /** `Partial<Classified>` without `id` and `updatedAt`. */
  datatype ClassifiedPatch = ClassifiedPatch(
    title: Option<string>,
    description: Option<string>,
    price: Option<real>,
    currency: Option<Currency>,
    category: Option<Doc<Category>>,
    subcategory: Option<string>,
    location: Option<Location>,
    images: Option<seq<string>>,
    contact: Option<Contact>,
    features: Option<Features>,
    status: Option<ClassifiedStatus>,
    featured: Option<bool>,
    premium: Option<bool>,
    views: Option<int>,
    favorites: Option<int>,
    createdAt: Option<Timestamp>,
    expiresAt: Option<Timestamp>,
    userId: Option<string>)

  const NoClassifiedChanges := ClassifiedPatch(None, None, None, None, None, None, None, None, None,
                                               None, None, None, None, None, None, None, None, None)

  /** `updateDoc(ref, { ...updates, updatedAt: serverTimestamp() })` on a classified. */
  function PatchClassified(c: Classified, p: ClassifiedPatch, now: Timestamp): (r: Classified)
    ensures r.updatedAt == now
  {
    Classified(
      p.title.GetOr(c.title),
      p.description.GetOr(c.description),
      Overwrite(p.price, c.price),
      p.currency.GetOr(c.currency),
      p.category.GetOr(c.category),
      Overwrite(p.subcategory, c.subcategory),
      p.location.GetOr(c.location),
      p.images.GetOr(c.images),
      p.contact.GetOr(c.contact),
      p.features.GetOr(c.features),
      p.status.GetOr(c.status),
      p.featured.GetOr(c.featured),
      p.premium.GetOr(c.premium),
      Overwrite(p.views, c.views),
      p.favorites.GetOr(c.favorites),
      p.createdAt.GetOr(c.createdAt),
      now,
      p.expiresAt.GetOr(c.expiresAt),
      p.userId.GetOr(c.userId))
  }

  /** What `updateDoc` merges: each field the update names replaces the stored one, each other field stays. */
  lemma PatchClassifiedFields(c: Classified, p: ClassifiedPatch, now: Timestamp)
    ensures p.title.Some? ==> PatchClassified(c, p, now).title == p.title.value
    ensures p.title.None? ==> PatchClassified(c, p, now).title == c.title
    ensures p.description.Some? ==> PatchClassified(c, p, now).description == p.description.value
    ensures p.description.None? ==> PatchClassified(c, p, now).description == c.description
    ensures p.price.Some? ==> PatchClassified(c, p, now).price == p.price
    ensures p.price.None? ==> PatchClassified(c, p, now).price == c.price
    ensures p.currency.Some? ==> PatchClassified(c, p, now).currency == p.currency.value
    ensures p.currency.None? ==> PatchClassified(c, p, now).currency == c.currency
    ensures p.category.Some? ==> PatchClassified(c, p, now).category == p.category.value
    ensures p.category.None? ==> PatchClassified(c, p, now).category == c.category
    ensures p.subcategory.Some? ==> PatchClassified(c, p, now).subcategory == p.subcategory
    ensures p.subcategory.None? ==> PatchClassified(c, p, now).subcategory == c.subcategory
    ensures p.location.Some? ==> PatchClassified(c, p, now).location == p.location.value
    ensures p.location.None? ==> PatchClassified(c, p, now).location == c.location
    ensures p.images.Some? ==> PatchClassified(c, p, now).images == p.images.value
    ensures p.images.None? ==> PatchClassified(c, p, now).images == c.images
    ensures p.contact.Some? ==> PatchClassified(c, p, now).contact == p.contact.value
    ensures p.contact.None? ==> PatchClassified(c, p, now).contact == c.contact
    ensures p.features.Some? ==> PatchClassified(c, p, now).features == p.features.value
    ensures p.features.None? ==> PatchClassified(c, p, now).features == c.features
    ensures p.status.Some? ==> PatchClassified(c, p, now).status == p.status.value
    ensures p.status.None? ==> PatchClassified(c, p, now).status == c.status
    ensures p.featured.Some? ==> PatchClassified(c, p, now).featured == p.featured.value
    ensures p.featured.None? ==> PatchClassified(c, p, now).featured == c.featured
    ensures p.premium.Some? ==> PatchClassified(c, p, now).premium == p.premium.value
    ensures p.premium.None? ==> PatchClassified(c, p, now).premium == c.premium
    ensures p.views.Some? ==> PatchClassified(c, p, now).views == p.views
    ensures p.views.None? ==> PatchClassified(c, p, now).views == c.views
    ensures p.favorites.Some? ==> PatchClassified(c, p, now).favorites == p.favorites.value
    ensures p.favorites.None? ==> PatchClassified(c, p, now).favorites == c.favorites
    ensures p.createdAt.Some? ==> PatchClassified(c, p, now).createdAt == p.createdAt.value
    ensures p.createdAt.None? ==> PatchClassified(c, p, now).createdAt == c.createdAt
    ensures p.expiresAt.Some? ==> PatchClassified(c, p, now).expiresAt == p.expiresAt.value
    ensures p.expiresAt.None? ==> PatchClassified(c, p, now).expiresAt == c.expiresAt
    ensures p.userId.Some? ==> PatchClassified(c, p, now).userId == p.userId.value
    ensures p.userId.None? ==> PatchClassified(c, p, now).userId == c.userId
  {
  }

  /** Two updates as one: a field the later one names wins, otherwise the earlier one's. */
  function MergeArticlePatches(first: ArticlePatch, later: ArticlePatch): ArticlePatch
  {
    ArticlePatch(
      Overwrite(later.title, first.title),
      Overwrite(later.slug, first.slug),
      Overwrite(later.excerpt, first.excerpt),
      Overwrite(later.content, first.content),
      Overwrite(later.featuredImage, first.featuredImage),
      Overwrite(later.author, first.author),
      Overwrite(later.category, first.category),
      Overwrite(later.tags, first.tags),
      Overwrite(later.status, first.status),
      Overwrite(later.featured, first.featured),
      Overwrite(later.views, first.views),
      Overwrite(later.likes, first.likes),
      Overwrite(later.createdAt, first.createdAt),
      Overwrite(later.publishedAt, first.publishedAt),
      Overwrite(later.seo, first.seo))
  }

  /** Two updates as one: a field the later one names wins, otherwise the earlier one's. */
  function MergeClassifiedPatches(first: ClassifiedPatch, later: ClassifiedPatch): ClassifiedPatch
  {
    ClassifiedPatch(
      Overwrite(later.title, first.title),
      Overwrite(later.description, first.description),
      Overwrite(later.price, first.price),
      Overwrite(later.currency, first.currency),
      Overwrite(later.category, first.category),
      Overwrite(later.subcategory, first.subcategory),
      Overwrite(later.location, first.location),
      Overwrite(later.images, first.images),
      Overwrite(later.contact, first.contact),
      Overwrite(later.features, first.features),
      Overwrite(later.status, first.status),
      Overwrite(later.featured, first.featured),
      Overwrite(later.premium, first.premium),
      Overwrite(later.views, first.views),
      Overwrite(later.favorites, first.favorites),
      Overwrite(later.createdAt, first.createdAt),
      Overwrite(later.expiresAt, first.expiresAt),
      Overwrite(later.userId, first.userId))
  }

  /** An update that names no field only moves `updatedAt`. */
  lemma EmptyPatchOnlyStamps(a: Article, c: Classified, now: Timestamp)
    ensures PatchArticle(a, NoArticleChanges, now) == a.(updatedAt := now)
    ensures PatchClassified(c, NoClassifiedChanges, now) == c.(updatedAt := now)
  {
  }

  /** Applying the same update twice at the same instant is applying it once. */
  lemma PatchIdempotent(a: Article, p: ArticlePatch, c: Classified, q: ClassifiedPatch, now: Timestamp)
    ensures PatchArticle(PatchArticle(a, p, now), p, now) == PatchArticle(a, p, now)
    ensures PatchClassified(PatchClassified(c, q, now), q, now) == PatchClassified(c, q, now)
  {
  }

  /**
   * Two updates of an article in a row are one update with the fields of
   * both, the later one winning where both name a field, stamped with the
   * later time.
   */
  lemma LaterPatchWins(a: Article, p: ArticlePatch, q: ArticlePatch, t1: Timestamp, t2: Timestamp)
    ensures PatchArticle(PatchArticle(a, p, t1), q, t2) == PatchArticle(a, MergeArticlePatches(p, q), t2)
  {
  }

  /** The same for two updates of a classified. */
  lemma LaterClassifiedPatchWins(c: Classified, p: ClassifiedPatch, q: ClassifiedPatch, t1: Timestamp, t2: Timestamp)
    ensures PatchClassified(PatchClassified(c, p, t1), q, t2) == PatchClassified(c, MergeClassifiedPatches(p, q), t2)
  {
  }

  // ---------------------------------------------------------------------
  // Counters

  /** `{ views: (data().views || 0) + 1 }`, and the same for clicks and impressions. */
  function Bump(c: Option<int>): (r: Option<int>)
    ensures r.Some?
    ensures CounterValue(r) == CounterValue(c) + 1
  {
    Some(CounterValue(c) + 1)
  }

  /** `k` successive increments. */
  function BumpTimes(c: Option<int>, k: nat): Option<int>
  {
    if k == 0 then c else Bump(BumpTimes(c, k - 1))
  }

  /** `k` increments add `k` to the counter, a missing counter counting as 0. */
  lemma {:induction false} BumpTimesAdds(c: Option<int>, k: nat)
    ensures CounterValue(BumpTimes(c, k)) == CounterValue(c) + k
    ensures k > 0 ==> BumpTimes(c, k) == Some(CounterValue(c) + k)
  {
    if k > 0 {
      BumpTimesAdds(c, k - 1);
    }
  }

  // ---------------------------------------------------------------------
  // Newsletter

  /** The newsletter query `where('email', '==', email)`. */
  function EmailIs(email: string): Subscription -> bool
  {
    (s: Subscription) => s.email == email
  }

  /** Some record, active or not, has this email. */
  predicate EmailTaken(col: map<Id, Subscription>, email: string)
  {
    exists id :: id in col && col[id].email == email
  }

  /** No two records share an email. */
  ghost predicate UniqueEmails(col: map<Id, Subscription>)
  {
    forall i, j :: i in col && j in col && col[i].email == col[j].email ==> i == j
  }

  /** `preferences || { categories: [], frequency: 'weekly' }`. */
  const DefaultPreferences := Preferences(Some([]), Some(Weekly))

  /** The record `subscribe` adds. */
  function NewSubscription(email: string, preferences: Option<Preferences>, now: Timestamp): (r: Subscription)
    ensures r.email == email && r.status == ActiveSubscription
    ensures r.createdAt == now && r.updatedAt == now
    ensures preferences.None? ==> r.preferences == DefaultPreferences
    ensures preferences.Some? ==> r.preferences == preferences.value
  {
    Subscription(email, ActiveSubscription, preferences.GetOr(DefaultPreferences), now, now)
  }

  /** A fresh email added to a collection without duplicates keeps it without duplicates. */
  lemma SubscribeKeepsEmailsUnique(col: map<Id, Subscription>, email: string, preferences: Option<Preferences>,
                                   id: Id, now: Timestamp)
    requires UniqueEmails(col) && !EmailTaken(col, email)
    ensures UniqueEmails(col[id := NewSubscription(email, preferences, now)])
  {
    var col' := col[id := NewSubscription(email, preferences, now)];
    forall i, j | i in col' && j in col' && col'[i].email == col'[j].email ensures i == j {
      if i != id && j != id {
        assert col[i].email == col[j].email;
      }
    }
  }

  /** `id` is the first record with `email` in the default order: the least such id. */
  ghost predicate FirstRecordWith(col: map<Id, Subscription>, email: string, id: Id)
  {
    && id in col && col[id].email == email
    && forall k :: k in col && col[k].email == email && k != id ==> StrLess(id, k)
  }

  /** The id of `snapshot.docs[0]` for the email query: the least id with that email. */
  function FirstWithEmail(col: map<Id, Subscription>, email: string): (r: Option<Id>)
    ensures r.None? <==> !EmailTaken(col, email)
    ensures r.Some? ==> FirstRecordWith(col, email, r.value)
  {
    var found := FirstMatching(col, EmailIs(email));
    if found.None? then
      assert forall id :: id in col ==> !EmailIs(email)(col[id]);
      None
    else
      assert EmailIs(email)(found.value.data);
      Some(found.value.id)
  }

  /** `{ status: 'unsubscribed', updatedAt: serverTimestamp() }` on the record `id`. */
  function MarkUnsubscribed(col: map<Id, Subscription>, id: Id, now: Timestamp): (r: map<Id, Subscription>)
    requires id in col
    ensures r.Keys == col.Keys
    ensures forall k :: k in col && k != id ==> r[k] == col[k]
    ensures r[id] == col[id].(status := Unsubscribed, updatedAt := now)
  {
    col[id := col[id].(status := Unsubscribed, updatedAt := now)]
  }

  /** The newsletter collection after `unsubscribe(email)`. */
  function AfterUnsubscribe(col: map<Id, Subscription>, email: string, now: Timestamp): map<Id, Subscription>
  {
    var found := FirstWithEmail(col, email);
    if found.None? then col else MarkUnsubscribed(col, found.value, now)
  }

  /**
   * `unsubscribe`: the first record with the email, the least id, becomes
   * unsubscribed and nothing else changes; nothing happens without one.
   */
  lemma AfterUnsubscribeMarksFirst(col: map<Id, Subscription>, email: string, now: Timestamp)
    ensures AfterUnsubscribe(col, email, now).Keys == col.Keys
    ensures !EmailTaken(col, email) ==> AfterUnsubscribe(col, email, now) == col
    ensures EmailTaken(col, email) ==>
              && FirstWithEmail(col, email).Some?
              && FirstRecordWith(col, email, FirstWithEmail(col, email).value)
              && AfterUnsubscribe(col, email, now) == MarkUnsubscribed(col, FirstWithEmail(col, email).value, now)
  {
  }

  /** Unsubscribing keeps the record, so the same email cannot subscribe again. */
  lemma UnsubscribeKeepsEmailTaken(col: map<Id, Subscription>, email: string, other: string, now: Timestamp)
    requires EmailTaken(col, email)
    ensures EmailTaken(AfterUnsubscribe(col, other, now), email)
  {
    var id :| id in col && col[id].email == email;
    var r := AfterUnsubscribe(col, other, now);
    AfterUnsubscribeMarksFirst(col, other, now);
    if EmailTaken(col, other) {
      var k := FirstWithEmail(col, other).value;
      if id == k {
        assert r[id] == col[id].(status := Unsubscribed, updatedAt := now);
      } else {
        assert r[id] == col[id];
      }
    }
    assert id in r && r[id].email == email;
  }

  lemma MarkUnsubscribedTwice(col: map<Id, Subscription>, id: Id, now: Timestamp)
    requires id in col
    ensures MarkUnsubscribed(MarkUnsubscribed(col, id, now), id, now) == MarkUnsubscribed(col, id, now)
  {
  }

  lemma MarkUnsubscribedKeepsEmails(col: map<Id, Subscription>, id: Id, now: Timestamp)
    requires id in col
    ensures forall k :: k in col ==> MarkUnsubscribed(col, id, now)[k].email == col[k].email
  {
  }

  /** Marking the first record with the email keeps it the first record with the email. */
  lemma FirstAfterMark(col: map<Id, Subscription>, email: string, id: Id, now: Timestamp)
    requires FirstRecordWith(col, email, id)
    ensures FirstWithEmail(MarkUnsubscribed(col, id, now), email) == Some(id)
  {
    var once := MarkUnsubscribed(col, id, now);
    MarkUnsubscribedKeepsEmails(col, id, now);
    assert once[id].email == email;
    var f2 := FirstWithEmail(once, email);
    var other := f2.value;
    assert FirstRecordWith(once, email, other);
    assert other != id ==> StrLess(other, id);
    assert other != id ==> StrLess(id, other);
    StrLessAsymmetric(id, other);
  }

  /** Unsubscribing twice at the same instant is unsubscribing once. */
  lemma UnsubscribeIdempotent(col: map<Id, Subscription>, email: string, now: Timestamp)
    ensures AfterUnsubscribe(AfterUnsubscribe(col, email, now), email, now) == AfterUnsubscribe(col, email, now)
  {
    var f1 := FirstWithEmail(col, email);
    if f1.Some? {
      var id := f1.value;
      FirstAfterMark(col, email, id, now);
      MarkUnsubscribedTwice(col, id, now);
    }
  }

  /** Without duplicate emails, no record of the email stays active after `unsubscribe`. */
  lemma UnsubscribeDeactivates(col: map<Id, Subscription>, email: string, now: Timestamp)
    requires UniqueEmails(col)
    ensures forall id :: id in col && col[id].email == email ==>
              AfterUnsubscribe(col, email, now)[id].status == Unsubscribed
              && AfterUnsubscribe(col, email, now)[id].updatedAt == now
  {
    var r := AfterUnsubscribe(col, email, now);
    AfterUnsubscribeMarksFirst(col, email, now);
    forall id | id in col && col[id].email == email
      ensures r[id].status == Unsubscribed && r[id].updatedAt == now
    {
      var k := FirstWithEmail(col, email).value;
      assert k == id;
    }
  }

  // ---------------------------------------------------------------------
  // The store

  /** The collections the services write, as one database. */
  class Firestore {
    var articles: map<Id, Article>
    var classifieds: map<Id, Classified>
    var advertisements: map<Id, Advertisement>
    var newsletter: map<Id, Subscription>
    var categories: map<Id, Category>

    constructor(articles: map<Id, Article>, classifieds: map<Id, Classified>,
                advertisements: map<Id, Advertisement>, newsletter: map<Id, Subscription>,
                categories: map<Id, Category>)
      ensures this.articles == articles && this.classifieds == classifieds
      ensures this.advertisements == advertisements && this.newsletter == newsletter
      ensures this.categories == categories
    {
      this.articles := articles;
      this.classifieds := classifieds;
      this.advertisements := advertisements;
      this.newsletter := newsletter;
      this.categories := categories;
    }

    /** `articleService.createArticle(data)`, `addDoc` choosing the fresh id `id`. */
    method CreateArticle(data: Article, id: Id, now: Timestamp) returns (newId: Id)
      requires id !in articles
      modifies this
      ensures newId == id && newId !in old(articles)
      ensures articles == old(articles)[id := data.(createdAt := now, updatedAt := now)]
      ensures classifieds == old(classifieds) && advertisements == old(advertisements)
      ensures newsletter == old(newsletter) && categories == old(categories)
    {
      articles := articles[id := data.(createdAt := now, updatedAt := now)];
      newId := id;
    }

    /** `articleService.updateArticle(id, updates)`: `updateDoc` fails on a missing document. */
    method UpdateArticle(id: Id, updates: ArticlePatch, now: Timestamp) returns (r: Outcome)
      modifies this
      ensures r == Failed(NotFound) <==> id !in old(articles)
      ensures r.Ok? <==> id in old(articles)
      ensures r.Ok? ==> articles == old(articles)[id := PatchArticle(old(articles)[id], updates, now)]
      ensures r.Failed? ==> articles == old(articles)
      ensures classifieds == old(classifieds) && advertisements == old(advertisements)
      ensures newsletter == old(newsletter) && categories == old(categories)
    {
      if id in articles {
        articles := articles[id := PatchArticle(articles[id], updates, now)];
        r := Ok;
      } else {
        r := Failed(NotFound);
      }
    }

    /** `articleService.deleteArticle(id)`: deleting a missing document succeeds and changes nothing. */
    method DeleteArticle(id: Id)
      modifies this
      ensures articles == old(articles) - {id}
      ensures classifieds == old(classifieds) && advertisements == old(advertisements)
      ensures newsletter == old(newsletter) && categories == old(categories)
    {
      articles := articles - {id};
    }

    /** `articleService.incrementViews(id)`: read, then write `views + 1`; `updatedAt` is not touched. */
    method IncrementArticleViews(id: Id)
      modifies this
      ensures id in old(articles) ==>
                articles == old(articles)[id := old(articles)[id].(views := Bump(old(articles)[id].views))]
      ensures id !in old(articles) ==> articles == old(articles)
      ensures classifieds == old(classifieds) && advertisements == old(advertisements)
      ensures newsletter == old(newsletter) && categories == old(categories)
    {
      if id in articles {
        var current := articles[id];
        articles := articles[id := current.(views := Bump(current.views))];
      }
    }

    /** `classifiedService.createClassified(data)`. */
    method CreateClassified(data: Classified, id: Id, now: Timestamp) returns (newId: Id)
      requires id !in classifieds
      modifies this
      ensures newId == id && newId !in old(classifieds)
      ensures classifieds == old(classifieds)[id := data.(createdAt := now, updatedAt := now)]
      ensures articles == old(articles) && advertisements == old(advertisements)
      ensures newsletter == old(newsletter) && categories == old(categories)
    {
      classifieds := classifieds[id := data.(createdAt := now, updatedAt := now)];
      newId := id;
    }

    /** `classifiedService.updateClassified(id, updates)`. */
    method UpdateClassified(id: Id, updates: ClassifiedPatch, now: Timestamp) returns (r: Outcome)
      modifies this
      ensures r == Failed(NotFound) <==> id !in old(classifieds)
      ensures r.Ok? <==> id in old(classifieds)
      ensures r.Ok? ==> classifieds == old(classifieds)[id := PatchClassified(old(classifieds)[id], updates, now)]
      ensures r.Failed? ==> classifieds == old(classifieds)
      ensures articles == old(articles) && advertisements == old(advertisements)
      ensures newsletter == old(newsletter) && categories == old(categories)
    {
      if id in classifieds {
        classifieds := classifieds[id := PatchClassified(classifieds[id], updates, now)];
        r := Ok;
      } else {
        r := Failed(NotFound);
      }
    }

    /** `classifiedService.deleteClassified(id)`. */
    method DeleteClassified(id: Id)
      modifies this
      ensures classifieds == old(classifieds) - {id}
      ensures articles == old(articles) && advertisements == old(advertisements)
      ensures newsletter == old(newsletter) && categories == old(categories)
    {
      classifieds := classifieds - {id};
    }

    /** `classifiedService.incrementViews(id)`. */
    method IncrementClassifiedViews(id: Id)
      modifies this
      ensures id in old(classifieds) ==>
                classifieds == old(classifieds)[id := old(classifieds)[id].(views := Bump(old(classifieds)[id].views))]
      ensures id !in old(classifieds) ==> classifieds == old(classifieds)
      ensures articles == old(articles) && advertisements == old(advertisements)
      ensures newsletter == old(newsletter) && categories == old(categories)
    {
      if id in classifieds {
        var current := classifieds[id];
        classifieds := classifieds[id := current.(views := Bump(current.views))];
      }
    }

    /** `advertisementService.trackClick(adId)`. */
    method TrackClick(adId: Id)
      modifies this
      ensures adId in old(advertisements) ==>
                advertisements == old(advertisements)[adId := old(advertisements)[adId].(clicks := Bump(old(advertisements)[adId].clicks))]
      ensures adId !in old(advertisements) ==> advertisements == old(advertisements)
      ensures articles == old(articles) && classifieds == old(classifieds)
      ensures newsletter == old(newsletter) && categories == old(categories)
    {
      if adId in advertisements {
        var current := advertisements[adId];
        advertisements := advertisements[adId := current.(clicks := Bump(current.clicks))];
      }
    }

    /** `advertisementService.trackImpression(adId)`. */
    method TrackImpression(adId: Id)
      modifies this
      ensures adId in old(advertisements) ==>
                advertisements == old(advertisements)[adId := old(advertisements)[adId].(impressions := Bump(old(advertisements)[adId].impressions))]
      ensures adId !in old(advertisements) ==> advertisements == old(advertisements)
      ensures articles == old(articles) && classifieds == old(classifieds)
      ensures newsletter == old(newsletter) && categories == old(categories)
    {
      if adId in advertisements {
        var current := advertisements[adId];
        advertisements := advertisements[adId := current.(impressions := Bump(current.impressions))];
      }
    }

    /**
     * `newsletterService.subscribe(email, preferences)`: refused when any
     * record, even an unsubscribed one, has the email.
     */
    method Subscribe(email: string, preferences: Option<Preferences>, id: Id, now: Timestamp) returns (r: Outcome)
      requires id !in newsletter
      modifies this
      ensures r == Failed(AlreadySubscribed) <==> EmailTaken(old(newsletter), email)
      ensures r.Ok? <==> !EmailTaken(old(newsletter), email)
      ensures r.Failed? ==> newsletter == old(newsletter)
      ensures r.Ok? ==> newsletter == old(newsletter)[id := NewSubscription(email, preferences, now)]
      ensures UniqueEmails(old(newsletter)) ==> UniqueEmails(newsletter)
      ensures articles == old(articles) && classifieds == old(classifieds)
      ensures advertisements == old(advertisements) && categories == old(categories)
    {
      if EmailTaken(newsletter, email) {
        r := Failed(AlreadySubscribed);
      } else {
        if UniqueEmails(newsletter) {
          SubscribeKeepsEmailsUnique(newsletter, email, preferences, id, now);
        }
        newsletter := newsletter[id := NewSubscription(email, preferences, now)];
        r := Ok;
      }
    }

    /** `newsletterService.unsubscribe(email)`. */
    method Unsubscribe(email: string, now: Timestamp)
      modifies this
      ensures newsletter == AfterUnsubscribe(old(newsletter), email, now)
      ensures articles == old(articles) && classifieds == old(classifieds)
      ensures advertisements == old(advertisements) && categories == old(categories)
    {
      newsletter := AfterUnsubscribe(newsletter, email, now);
    }
  }
}
