/** The pure helpers of the client-side Unsplash service
    (src/services/unsplash.ts): choosing a search query for a product
    category, and the attribution text and referral links the Unsplash
    guidelines require. */
module UnsplashService {
  import opened Wrappers
  import opened JsBuiltins

  datatype ImageUrls = ImageUrls(raw: string, full: string, regular: string, small: string, thumb: string)
  datatype UserLinks = UserLinks(html: string)
  datatype Photographer = Photographer(name: string, username: string, links: UserLinks)
  datatype PhotoLinks = PhotoLinks(html: string, downloadLocation: string)

  datatype UnsplashImage = UnsplashImage(
    id: string, urls: ImageUrls, altDescription: Option<string>,
    description: Option<string>, user: Photographer, links: PhotoLinks)

  // ---------------------------------------------------------------------
  // Category queries

  const Tents: seq<string> := ["camping tent", "backpacking tent", "outdoor tent"]
  const SleepingGear: seq<string> := ["sleeping bag camping", "camping mattress", "camping pillow"]
  const Backpacks: seq<string> := ["hiking backpack", "camping backpack", "outdoor backpack"]
  const Cooking: seq<string> := ["camping stove", "camping cookware", "outdoor cooking"]
  const Footwear: seq<string> := ["hiking boots", "trail running shoes", "outdoor footwear"]
  const Accessories: seq<string> := ["camping lantern", "camping gear", "hiking accessories"]

  /** The query used when no category keyword matches. */
  const FallbackQuery := "camping gear"

  /** `list[index % list.length]` with JavaScript's truncating remainder:
      a negative index that is not a multiple of the length reads before the
      start of the array, which yields `undefined` (here `None`). */
  function Pick(list: seq<string>, index: int): (q: Option<string>)
    requires |list| > 0
    ensures q.Some? ==> q.value in list
    ensures index >= 0 ==> q == Some(list[index % |list|])
    ensures q.None? <==> index < 0 && (-index) % |list| != 0
    ensures index < 0 && (-index) % |list| == 0 ==> q == Some(list[0])
  {
    var r := TruncRem(index, |list|);
    if r < 0 then None else Some(list[r])
  }

  /** The query chosen by `getImageForCategory`: the first matching rule in
      the if-chain over the lower-cased category wins. */
  function CategoryQuery(category: string, index: int := 0): (query: Option<string>)
    ensures index >= 0 ==> query.Some?
    ensures query.Some? ==> query.value == FallbackQuery || query.value in Tents + SleepingGear + Backpacks + Cooking + Footwear + Accessories
  {
    var lower := ToLower(category);
    if Includes(lower, "tent") then Pick(Tents, index)
    else if Includes(lower, "sleeping") then Pick(SleepingGear, index)
    else if Includes(lower, "backpack") || Includes(lower, "bag") then Pick(Backpacks, index)
    else if Includes(lower, "cooking") then Pick(Cooking, index)
    else if Includes(lower, "footwear") || Includes(lower, "shoe") then Pick(Footwear, index)
    else if Includes(lower, "accessories") then Pick(Accessories, index)
    else Some(FallbackQuery)
  }

  /** A keyword rule: a category matching any keyword takes its query from
      the list. */
  datatype Rule = Rule(keywords: seq<string>, queries: seq<string>)

  /** The category table, in priority order. */
  const Rules: seq<Rule> := [
    Rule(["tent"], Tents),
    Rule(["sleeping"], SleepingGear),
    Rule(["backpack", "bag"], Backpacks),
    Rule(["cooking"], Cooking),
    Rule(["footwear", "shoe"], Footwear),
    Rule(["accessories"], Accessories)]

  predicate RuleMatches(rule: Rule, text: string) {
    exists k :: 0 <= k < |rule.keywords| && Includes(text, rule.keywords[k])
  }

  /** The index of the first rule that matches, if any. */
  function FirstMatch(rules: seq<Rule>, text: string): (m: Option<nat>)
    ensures m.Some? ==> m.value < |rules| && RuleMatches(rules[m.value], text)
    ensures m.Some? ==> forall j :: 0 <= j < m.value ==> !RuleMatches(rules[j], text)
    ensures m.None? ==> forall j :: 0 <= j < |rules| ==> !RuleMatches(rules[j], text)
  {
    if rules == [] then None
    else if RuleMatches(rules[0], text) then Some(0)
    else match FirstMatch(rules[1..], text)
      case None => None
      case Some(k) => Some(k + 1)
  }

  /** The table-driven reference for the query choice. */
  function TableQuery(category: string, index: int): Option<string> {
    match FirstMatch(Rules, ToLower(category))
    case None => Some(FallbackQuery)
    case Some(k) =>
      assert k < |Rules|;
      if |Rules[k].queries| > 0 then Pick(Rules[k].queries, index) else None
  }

  /** The if-chain of `getImageForCategory` is the first-match lookup in the
      category table. */
  lemma {:induction false} CategoryQueryFollowsTable(category: string, index: int)
    ensures CategoryQuery(category, index) == TableQuery(category, index)
  {
    var lower := ToLower(category);
    var m := FirstMatch(Rules, lower);
    assert RuleMatches(Rules[0], lower) <==> Includes(lower, "tent") by {
      assert Rules[0].keywords[0] == "tent";
    }
    assert RuleMatches(Rules[1], lower) <==> Includes(lower, "sleeping") by {
      assert Rules[1].keywords[0] == "sleeping";
    }
    assert RuleMatches(Rules[2], lower) <==> Includes(lower, "backpack") || Includes(lower, "bag") by {
      assert Rules[2].keywords[0] == "backpack" && Rules[2].keywords[1] == "bag";
    }
    assert RuleMatches(Rules[3], lower) <==> Includes(lower, "cooking") by {
      assert Rules[3].keywords[0] == "cooking";
    }
    assert RuleMatches(Rules[4], lower) <==> Includes(lower, "footwear") || Includes(lower, "shoe") by {
      assert Rules[4].keywords[0] == "footwear" && Rules[4].keywords[1] == "shoe";
    }
    assert RuleMatches(Rules[5], lower) <==> Includes(lower, "accessories") by {
      assert Rules[5].keywords[0] == "accessories";
    }
  }

  /** The query choice ignores the case of the category, and a non-negative
      index always yields one of the rule's queries or the fallback. */
  lemma CategoryQueryProperties(category: string, index: int)
    ensures CategoryQuery(ToUpper(category), index) == CategoryQuery(category, index)
    ensures CategoryQuery(ToLower(category), index) == CategoryQuery(category, index)
    ensures index >= 0 ==> CategoryQuery(category, index).Some?
    ensures FirstMatch(Rules, ToLower(category)).None? ==> CategoryQuery(category, index) == Some(FallbackQuery)
  {
    LowerAbsorbsCase(category);
    CategoryQueryFollowsTable(category, index);
  }

  /** `getImageForCategory`: search for the chosen query (an `undefined`
      query is sent as the text "undefined") and return the first result,
      or nothing when the search fails or finds nothing. */
  function ImageForCategory(category: string, index: int := 0,
                            search: string -> Result<seq<UnsplashImage>, string>): (image: Option<UnsplashImage>)
    ensures image.Some? <==> (var q := CategoryQuery(category, index);
                              var sent := if q.Some? then q.value else "undefined";
                              search(sent).Success? && |search(sent).value| > 0)
    ensures image.Some? ==> (var q := CategoryQuery(category, index);
                             var sent := if q.Some? then q.value else "undefined";
                             image.value == search(sent).value[0])
  {
    var sent := match CategoryQuery(category, index) case Some(q) => q case None => "undefined";
    match search(sent)
    case Failure(_) => None
    case Success(results) => if |results| > 0 then Some(results[0]) else None
  }

  // ---------------------------------------------------------------------
  // Attribution and referral links

  const AttributionPrefix := "Photo by "
  const AttributionSuffix := " on Unsplash"
  const ReferralQuery := "?utm_source=forest_queen&utm_medium=referral"

  /** Reads the photographer's name back out of an attribution line. */
  function AttributedName(text: string): Option<string> {
    if |text| >= |AttributionPrefix| + |AttributionSuffix|
       && text[..|AttributionPrefix|] == AttributionPrefix
       && text[|text| - |AttributionSuffix|..] == AttributionSuffix
    then Some(text[|AttributionPrefix|..|text| - |AttributionSuffix|])
    else None
  }

  /** `getImageAttribution`: the line names the photographer and can be read
      back. */
  function ImageAttribution(image: UnsplashImage): (text: string)
    ensures AttributedName(text) == Some(image.user.name)
    ensures |text| == |image.user.name| + 21
  {
    var text := AttributionPrefix + image.user.name + AttributionSuffix;
    assert text[..|AttributionPrefix|] == AttributionPrefix;
    assert text[|text| - |AttributionSuffix|..] == AttributionSuffix;
    assert text[|AttributionPrefix|..|text| - |AttributionSuffix|] == image.user.name;
    text
  }

  /** Removes the referral query from a link, if it ends with it. */
  function WithoutReferral(url: string): Option<string> {
    if |url| >= |ReferralQuery| && url[|url| - |ReferralQuery|..] == ReferralQuery
    then Some(url[..|url| - |ReferralQuery|])
    else None
  }

  /** `getUserProfileUrl`: the photographer's profile link with the
      referral parameters appended. */
  function UserProfileUrl(image: UnsplashImage): (url: string)
    ensures WithoutReferral(url) == Some(image.user.links.html)
  {
    var url := image.user.links.html + ReferralQuery;
    assert url[|url| - |ReferralQuery|..] == ReferralQuery;
    assert url[..|url| - |ReferralQuery|] == image.user.links.html;
    url
  }

  /** `getPhotoPageUrl`: the photo's page link with the referral parameters
      appended. */
  function PhotoPageUrl(image: UnsplashImage): (url: string)
    ensures WithoutReferral(url) == Some(image.links.html)
  {
    var url := image.links.html + ReferralQuery;
    assert url[|url| - |ReferralQuery|..] == ReferralQuery;
    assert url[..|url| - |ReferralQuery|] == image.links.html;
    url
  }
}
