/** Conversion of catalogue records from the FakeStore API into the shop's
    product and category records (lib/utils.ts). Prices and ratings are
    compared only, so they are reals here. */
module CatalogUtils {
  import opened Wrappers
  import opened JsBuiltins

  datatype Rating = Rating(rate: real, count: int)

  datatype FakeStoreProduct = FakeStoreProduct(
    id: int, title: string, price: real, description: string,
    category: string, image: string, rating: Rating)

  datatype Product = Product(
    id: string, name: string, description: string, price: real,
    originalPrice: Option<real>, discount: Option<real>,
    rating: real, reviewCount: int, image: string, category: string,
    inStock: bool, badges: Option<seq<string>>)

  datatype Category = Category(id: string, name: string, slug: string, image: string, description: Option<string>)

  const BestSeller := "Best Seller"
  const GreatDeal := "Great Deal"
  const Popular := "Popular"

  /** The position of a badge in the fixed badge order. */
  function BadgeRank(badge: string): int {
    if badge == BestSeller then 0 else if badge == GreatDeal then 1 else if badge == Popular then 2 else 3
  }

  /** The badges a product earns: 'Best Seller' for a rating of at least
      4.5, 'Great Deal' for a price under 50, 'Popular' for more than 200
      ratings, in that order. */
  function Badges(p: FakeStoreProduct): (badges: seq<string>)
    ensures BestSeller in badges <==> p.rating.rate >= 4.5
    ensures GreatDeal in badges <==> p.price < 50.0
    ensures Popular in badges <==> p.rating.count > 200
    ensures forall b :: b in badges ==> b == BestSeller || b == GreatDeal || b == Popular
    ensures forall i, j :: 0 <= i < j < |badges| ==> BadgeRank(badges[i]) < BadgeRank(badges[j])
    ensures |badges| <= 3
  {
    (if p.rating.rate >= 4.5 then [BestSeller] else [])
    + (if p.price < 50.0 then [GreatDeal] else [])
    + (if p.rating.count > 200 then [Popular] else [])
  }

  /** `determineBadges`: pushes each earned badge onto a list, in order. */
  method DetermineBadges(p: FakeStoreProduct) returns (badges: seq<string>)
    ensures badges == Badges(p)
  {
    badges := [];
    if p.rating.rate >= 4.5 {
      badges := badges + [BestSeller];
    }
    if p.price < 50.0 {
      badges := badges + [GreatDeal];
    }
    if p.rating.count > 200 {
      badges := badges + [Popular];
    }
  }

  /** `convertFakeStoreProduct`: the title becomes the name, the rating's
      rate and count become `rating` and `reviewCount`, the numeric id is
      printed, every product is in stock, and the badges are derived. */
  function ConvertFakeStoreProduct(p: FakeStoreProduct): (r: Product)
    ensures ParseInt(r.id) == Int(p.id)
    ensures r.name == p.title && r.description == p.description && r.price == p.price
    ensures r.rating == p.rating.rate && r.reviewCount == p.rating.count
    ensures r.image == p.image && r.category == p.category
    ensures r.inStock && r.badges == Some(Badges(p))
    ensures r.originalPrice.None? && r.discount.None?
  {
    ParseIntToString(p.id);
    Product(IntToString(p.id), p.title, p.description, p.price, None, None,
            p.rating.rate, p.rating.count, p.image, p.category, true, Some(Badges(p)))
  }

  // ---------------------------------------------------------------------
  // Categories

  const DefaultCategoryImage := "https://images.unsplash.com/photo-1441986300917-64674bd600d8?w=400&h=400&fit=crop"

  const CategoryImages: map<string, string> := map[
    "electronics" := "https://images.unsplash.com/photo-1498049794561-7780e7231661?w=400&h=400&fit=crop",
    "jewelery" := "https://images.unsplash.com/photo-1515562141207-7a88fb7ce338?w=400&h=400&fit=crop",
    "men's clothing" := "https://images.unsplash.com/photo-1516257984-b1b4d707412e?w=400&h=400&fit=crop",
    "women's clothing" := "https://images.unsplash.com/photo-1490481651871-ab68de25d43d?w=400&h=400&fit=crop"]

  const CategoryDescriptions: map<string, string> := map[
    "electronics" := "Latest tech gadgets and devices",
    "jewelery" := "Elegant jewelry pieces",
    "men's clothing" := "Stylish men's fashion",
    "women's clothing" := "Trendy women's apparel"]

  predicate IsSlugChar(c: char) {
    'a' <= c <= 'z' || '0' <= c <= '9'
  }

  /** `replace(/[^a-z0-9]/g, '-')`. */
  function ReplaceNonSlugChars(s: string): (r: string)
    ensures |r| == |s|
    ensures forall i :: 0 <= i < |s| ==> r[i] == (if IsSlugChar(s[i]) then s[i] else '-')
    ensures forall i :: 0 <= i < |r| ==> IsSlugChar(r[i]) || r[i] == '-'
  {
    seq(|s|, i requires 0 <= i < |s| => if IsSlugChar(s[i]) then s[i] else '-')
  }

  /** The slug of a category name: lower-cased, then every character outside
      `[a-z0-9]` replaced by '-'. */
  function Slugify(name: string): (slug: string)
    ensures |slug| == |name|
    ensures forall i :: 0 <= i < |slug| ==> IsSlugChar(slug[i]) || slug[i] == '-'
    ensures forall i :: 0 <= i < |slug| ==>
              slug[i] == if IsSlugChar(LowerChar(name[i])) then LowerChar(name[i]) else '-'
  {
    ReplaceNonSlugChars(ToLower(name))
  }

  /** A slug is its own slug, and names that differ only in case share one. */
  lemma SlugifyNormalises(name: string, other: string)
    ensures Slugify(Slugify(name)) == Slugify(name)
    ensures ToLower(name) == ToLower(other) ==> Slugify(name) == Slugify(other)
  {
  }

  /** `convertFakeStoreCategory`: identical id and slug, the capitalised
      name, the mapped image or the default one, and the mapped description
      or none. */
  function ConvertFakeStoreCategory(categoryName: string): (c: Category)
    ensures c.id == c.slug == Slugify(categoryName)
    ensures c.name == CapitalizeWords(categoryName)
    ensures c.image == if categoryName in CategoryImages then CategoryImages[categoryName] else DefaultCategoryImage
    ensures c.description == if categoryName in CategoryDescriptions then Some(CategoryDescriptions[categoryName]) else None
  {
    Category(
      Slugify(categoryName),
      CapitalizeWords(categoryName),
      Slugify(categoryName),
      if categoryName in CategoryImages && CategoryImages[categoryName] != "" then CategoryImages[categoryName]
      else DefaultCategoryImage,
      if categoryName in CategoryDescriptions then Some(CategoryDescriptions[categoryName]) else None)
  }

  // ---------------------------------------------------------------------
  // Capitalisation

  /** `word.charAt(0).toUpperCase() + word.slice(1)`. */
  function CapitalizeFirst(word: string): (w: string)
    ensures |w| == |word|
  {
    if word == [] then [] else [UpperChar(word[0])] + word[1..]
  }

  function CapitalizeEach(words: seq<string>): (ws: seq<string>)
    ensures |ws| == |words|
    ensures forall k :: 0 <= k < |words| ==> ws[k] == CapitalizeFirst(words[k])
  {
    seq(|words|, i requires 0 <= i < |words| => CapitalizeFirst(words[i]))
  }

  /** `capitalizeWords`: split on single spaces, capitalise each word, join
      with single spaces. The result keeps the length and changes only
      characters that start the string or follow a space, and only by
      upper-casing them. */
  function CapitalizeWords(s: string): (r: string)
    ensures |r| == |s|
    ensures forall i :: 0 <= i < |s| ==> r[i] == CapitalizedAt(s, i)
  {
    JoinSplit(s, ' ');
    JoinCapitalizeEach(Split(s, ' '));
    Join(CapitalizeEach(Split(s, ' ')), ' ')
  }

  /** The character-wise reference: a character is upper-cased exactly when
      it starts the string or follows a space. */
  function CapitalizedAt(s: string, i: int): char
    requires 0 <= i < |s|
  {
    if i == 0 || s[i - 1] == ' ' then UpperChar(s[i]) else s[i]
  }

  lemma {:induction false} JoinCapitalizeEach(words: seq<string>)
    requires |words| >= 1
    requires forall k :: 0 <= k < |words| ==> ' ' !in words[k]
    ensures |Join(CapitalizeEach(words), ' ')| == |Join(words, ' ')|
    ensures forall i :: 0 <= i < |Join(words, ' ')| ==>
              Join(CapitalizeEach(words), ' ')[i] == CapitalizedAt(Join(words, ' '), i)
    decreases |words|
  {
    var w := words[0];
    if |words| == 1 {
      assert Join(CapitalizeEach(words), ' ') == CapitalizeFirst(w);
    } else {
      var rest := words[1..];
      JoinCapitalizeEach(rest);
      assert CapitalizeEach(words)[1..] == CapitalizeEach(rest);
      var joined := Join(rest, ' ');
      var s := w + " " + joined;
      assert Join(words, ' ') == s;
      assert Join(CapitalizeEach(words), ' ') == CapitalizeFirst(w) + " " + Join(CapitalizeEach(rest), ' ');
      forall i | 0 <= i < |s|
        ensures (CapitalizeFirst(w) + " " + Join(CapitalizeEach(rest), ' '))[i] == CapitalizedAt(s, i)
      {
        if i > |w| {
          var j := i - |w| - 1;
          assert s[i] == joined[j];
          assert s[i - 1] == if j == 0 then ' ' else joined[j - 1];
        }
      }
    }
  }

  /** Capitalising twice is capitalising once, and spaces stay where they
      were. */
  lemma {:induction false} CapitalizeWordsIdempotent(s: string)
    ensures |CapitalizeWords(s)| == |s|
    ensures forall i :: 0 <= i < |s| ==> (CapitalizeWords(s)[i] == ' ' <==> s[i] == ' ')
    ensures CapitalizeWords(CapitalizeWords(s)) == CapitalizeWords(s)
  {
    var c := CapitalizeWords(s);
    forall i | 0 <= i < |s|
      ensures CapitalizeWords(c)[i] == c[i]
    {
      assert i > 0 ==> (c[i - 1] == ' ' <==> s[i - 1] == ' ');
    }
  }
}
