/** The search-result preview and SEO score of an edited page
    (frontend/src/app/components/seo-preview/seo-preview.component.ts). */
module SeoPreview {
  import opened Slugs

  /** One entry of `seoTips`. */
  datatype Tip = Tip(kind: string, icon: string, message: string)

  // The tips `calculateSeoScore` can give.
  const TitleMissing := Tip("error", "error", "Title is required for SEO.")
  const TitleShort := Tip("warning", "warning", "Title is too short. Aim for 30-60 characters.")
  const TitleLong := Tip("warning", "warning", "Title is too long. Keep it under 60 characters.")
  const DescriptionMissing := Tip("error", "error", "Meta description is required for SEO.")
  const DescriptionShort := Tip("info", "info", "Meta description could be longer. Aim for 120-160 characters.")
  const DescriptionLong := Tip("warning", "warning", "Meta description is too long. Keep it under 160 characters.")
  const SlugMissing := Tip("warning", "warning", "URL slug is recommended for better SEO.")
  const SlugMalformed := Tip("warning", "warning", "URL slug should be short and use only lowercase letters, numbers, and hyphens.")
  const ImageMissing := Tip("info", "info", "Add an Open Graph image for better social media sharing.")
  const CustomMetaTitle := Tip("success", "check_circle", "Great! You have a custom meta title.")
  const HasMetaDescription := Tip("success", "check_circle", "Great! You have a meta description.")

  /** `s || d` on strings. */
  function OrElse(s: string, d: string): string {
    if s != "" then s else d
  }

  /** The display rule for titles and descriptions: a text longer than `max`
      is cut to `max - 3` characters and "..." is added. */
  function Truncate(s: string, max: nat): (r: string)
    requires max >= 3
    ensures |r| <= max || r == s
    ensures |s| <= max ==> r == s
    ensures |s| > max ==> |r| == max && r == s[..max - 3] + "..."
  {
    if |s| > max then s[..max - 3] + "..." else s
  }

  function DisplayTitle(metaTitle: string, title: string): (r: string)
    ensures 0 < |r| <= 60
  {
    Truncate(OrElse(metaTitle, OrElse(title, "Untitled Page")), 60)
  }

  function DisplayDescription(metaDescription: string, description: string): (r: string)
    ensures 0 < |r| <= 160
  {
    Truncate(OrElse(metaDescription, OrElse(description, "No description available.")), 160)
  }

  /** Title points and tips. */
  function TitlePoints(title: string): int {
    if title == "" then 0 else if 30 <= |title| <= 60 then 30 else 20
  }

  function TitleTips(title: string): seq<Tip> {
    if title == "" then [TitleMissing]
    else if 30 <= |title| <= 60 then []
    else if |title| < 30 then [TitleShort]
    else [TitleLong]
  }

  /** Description points and tips, on the meta description or else the description. */
  function DescriptionPoints(metaDescription: string, description: string): int {
    var desc := OrElse(metaDescription, description);
    if desc == "" then 0 else if 120 <= |desc| <= 160 then 25 else 20
  }

  function DescriptionTips(metaDescription: string, description: string): seq<Tip> {
    var desc := OrElse(metaDescription, description);
    if desc == "" then [DescriptionMissing]
    else if 120 <= |desc| <= 160 then []
    else if |desc| < 120 then [DescriptionShort]
    else [DescriptionLong]
  }

  /** `slug.length <= 75 && /^[a-z0-9-]+$/.test(slug)` */
  predicate GoodSlug(slug: string) {
    |slug| <= 75 && slug != "" && IsSlugText(slug)
  }

  function SlugPoints(slug: string): int {
    if slug == "" then 0 else if GoodSlug(slug) then 20 else 15
  }

  function SlugTips(slug: string): seq<Tip> {
    if slug == "" then [SlugMissing]
    else if GoodSlug(slug) then []
    else [SlugMalformed]
  }

  /** The inputs of the component. */
  datatype Page = Page(title: string, metaTitle: string, description: string, metaDescription: string,
                       slug: string, ogImage: string)

  /** The unclamped sum `calculateSeoScore` accumulates. */
  function RawScore(p: Page): int {
    TitlePoints(p.title) + DescriptionPoints(p.metaDescription, p.description) + SlugPoints(p.slug)
    + (if p.ogImage != "" then 15 else 0)
    + (if p.metaTitle != "" && p.metaTitle != p.title then 5 else 0)
    + (if p.metaDescription != "" then 5 else 0)
  }

  function Tips(p: Page): seq<Tip> {
    TitleTips(p.title) + DescriptionTips(p.metaDescription, p.description) + SlugTips(p.slug)
    + (if p.ogImage != "" then [] else [ImageMissing])
    + (if p.metaTitle != "" && p.metaTitle != p.title then [CustomMetaTitle] else [])
    + (if p.metaDescription != "" then [HasMetaDescription] else [])
  }

  /** `Math.min(score, 100)` */
  function Score(p: Page): int {
    if RawScore(p) < 100 then RawScore(p) else 100
  }

  function ScoreClass(score: int): string {
    if score >= 80 then "excellent" else if score >= 60 then "good" else if score >= 40 then "fair" else "poor"
  }

  /** The parts are 30 + 25 + 20 + 15 + 5 + 5 at most, each a multiple of 5, so
      the clamp never applies and the score is a multiple of 5 in [0, 100]. */
  lemma ScoreBounds(p: Page)
    ensures Score(p) == RawScore(p)
    ensures 0 <= Score(p) <= 100 && Score(p) % 5 == 0
  {
  }

  /** Full marks exactly when every check passes. */
  lemma FullScore(p: Page)
    ensures Score(p) == 100 <==>
      30 <= |p.title| <= 60
      && 120 <= |OrElse(p.metaDescription, p.description)| <= 160
      && GoodSlug(p.slug) && p.ogImage != ""
      && p.metaTitle != "" && p.metaTitle != p.title && p.metaDescription != ""
  {
  }

  /** An empty page scores 0 and gets the four missing-item tips. */
  lemma EmptyPage()
    ensures Score(Page("", "", "", "", "", "")) == 0 && ScoreClass(0) == "poor"
    ensures |Tips(Page("", "", "", "", "", ""))| == 4
  {
  }

  /** The checks of `calculateSeoScore`, in its order: points accumulated in
      a local, tips collected in a list that starts empty. */
  method Evaluate(p: Page) returns (score: int, tips: seq<Tip>)
    ensures score == RawScore(p) && tips == Tips(p)
  {
    score := 0;
    tips := [];
    // title
    if p.title != "" {
      score := score + 10;
      if |p.title| >= 30 && |p.title| <= 60 {
        score := score + 20;
      } else if |p.title| < 30 {
        tips := tips + [TitleShort];
        score := score + 10;
      } else {
        tips := tips + [TitleLong];
        score := score + 10;
      }
    } else {
      tips := tips + [TitleMissing];
    }
    assert score == TitlePoints(p.title) && tips == TitleTips(p.title);
    // description
    if p.metaDescription != "" || p.description != "" {
      score := score + 10;
      var desc := if p.metaDescription != "" then p.metaDescription else p.description;
      if |desc| >= 120 && |desc| <= 160 {
        score := score + 15;
      } else if |desc| < 120 {
        tips := tips + [DescriptionShort];
        score := score + 10;
      } else {
        tips := tips + [DescriptionLong];
        score := score + 10;
      }
    } else {
      tips := tips + [DescriptionMissing];
    }
    assert score == TitlePoints(p.title) + DescriptionPoints(p.metaDescription, p.description);
    assert tips == TitleTips(p.title) + DescriptionTips(p.metaDescription, p.description);
    // slug
    if p.slug != "" {
      score := score + 10;
      if GoodSlug(p.slug) {
        score := score + 10;
      } else {
        tips := tips + [SlugMalformed];
        score := score + 5;
      }
    } else {
      tips := tips + [SlugMissing];
    }
    assert score == TitlePoints(p.title) + DescriptionPoints(p.metaDescription, p.description) + SlugPoints(p.slug);
    assert tips == TitleTips(p.title) + DescriptionTips(p.metaDescription, p.description) + SlugTips(p.slug);
    // image
    if p.ogImage != "" {
      score := score + 15;
    } else {
      tips := tips + [ImageMissing];
    }
    assert tips == TitleTips(p.title) + DescriptionTips(p.metaDescription, p.description) + SlugTips(p.slug)
                   + (if p.ogImage != "" then [] else [ImageMissing]);
    // bonus
    if p.metaTitle != "" && p.metaTitle != p.title {
      score := score + 5;
      tips := tips + [CustomMetaTitle];
    }
    assert tips == TitleTips(p.title) + DescriptionTips(p.metaDescription, p.description) + SlugTips(p.slug)
                   + (if p.ogImage != "" then [] else [ImageMissing])
                   + (if p.metaTitle != "" && p.metaTitle != p.title then [CustomMetaTitle] else []);
    if p.metaDescription != "" {
      score := score + 5;
      tips := tips + [HasMetaDescription];
    }
  }

  class Preview {
    var page: Page
    var displayTitle: string
    var displayDescription: string
    var seoScore: int
    var scoreClass: string
    var seoTips: seq<Tip>

    constructor()
      ensures page == Page("", "", "", "", "", "") && seoTips == [] && seoScore == 0
    {
      page := Page("", "", "", "", "", "");
      displayTitle := "";
      displayDescription := "";
      seoScore := 0;
      scoreClass := "";
      seoTips := [];
    }

    /** `ngOnChanges`: new inputs, then the preview and the score recomputed
        from them alone. */
    method OnChanges(p: Page)
      modifies this
      ensures page == p
      ensures displayTitle == DisplayTitle(p.metaTitle, p.title)
      ensures displayDescription == DisplayDescription(p.metaDescription, p.description)
      ensures seoScore == Score(p) && seoTips == Tips(p) && scoreClass == ScoreClass(seoScore)
    {
      page := p;
      UpdatePreview();
      CalculateSeoScore();
    }

    /** `updatePreview` */
    method UpdatePreview()
      modifies this
      ensures displayTitle == DisplayTitle(page.metaTitle, page.title)
      ensures displayDescription == DisplayDescription(page.metaDescription, page.description)
      ensures page == old(page) && seoScore == old(seoScore) && seoTips == old(seoTips) && scoreClass == old(scoreClass)
    {
      displayTitle := if page.metaTitle != "" then page.metaTitle else if page.title != "" then page.title else "Untitled Page";
      displayDescription := if page.metaDescription != "" then page.metaDescription
                            else if page.description != "" then page.description
                            else "No description available.";
      if |displayTitle| > 60 {
        displayTitle := displayTitle[..57] + "...";
      }
      if |displayDescription| > 160 {
        displayDescription := displayDescription[..157] + "...";
      }
    }

    /** `calculateSeoScore`: the score and the tips recomputed from the
        inputs alone, the score clamped to 100 and classed. */
    method CalculateSeoScore()
      modifies this
      ensures seoScore == Score(page) && seoTips == Tips(page) && scoreClass == ScoreClass(seoScore)
      ensures page == old(page) && displayTitle == old(displayTitle) && displayDescription == old(displayDescription)
    {
      var score, tips := Evaluate(page);
      seoTips := tips;
      seoScore := if score < 100 then score else 100;
      if seoScore >= 80 {
        scoreClass := "excellent";
      } else if seoScore >= 60 {
        scoreClass := "good";
      } else if seoScore >= 40 {
        scoreClass := "fair";
      } else {
        scoreClass := "poor";
      }
    }
  }
}
