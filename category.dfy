/** `categorizeWebsite`: the fixed classification of domains (background.js). */
module Category {

  datatype CategoryType = Productive | Unproductive | Neutral

  /** `{ type, category }` as stored on a domain record: `name` is the JS `category` field. */
  datatype Category = Category(kind: CategoryType, name: string)

  /** The `type` string the dashboard's category filter compares against. */
  function TypeName(k: CategoryType): string {
    match k
    case Productive => "productive"
    case Unproductive => "unproductive"
    case Neutral => "neutral"
  }

  const ProductiveSites: map<string, string> := map[
    "github.com" := "Development",
    "stackoverflow.com" := "Development",
    "developer.mozilla.org" := "Development",
    "codepen.io" := "Development",
    "leetcode.com" := "Development",
    "hackerrank.com" := "Development",
    "docs.google.com" := "Productivity",
    "notion.so" := "Productivity",
    "trello.com" := "Productivity",
    "asana.com" := "Productivity",
    "slack.com" := "Communication",
    "zoom.us" := "Communication",
    "teams.microsoft.com" := "Communication",
    "gmail.com" := "Communication",
    "coursera.org" := "Learning",
    "udemy.com" := "Learning",
    "khanacademy.org" := "Learning",
    "edx.org" := "Learning"
  ]

  const UnproductiveSites: map<string, string> := map[
    "facebook.com" := "Social Media",
    "instagram.com" := "Social Media",
    "twitter.com" := "Social Media",
    "tiktok.com" := "Social Media",
    "linkedin.com" := "Social Media",
    "youtube.com" := "Entertainment",
    "netflix.com" := "Entertainment",
    "twitch.tv" := "Entertainment",
    "reddit.com" := "Entertainment",
    "buzzfeed.com" := "Entertainment"
  ]

  const OtherLabel := "Other"

  /**
   * The productive table is consulted first, then the unproductive one; a domain
   * in neither is neutral with the label "Other". Every label is non-empty, so a
   * table hit is always truthy in the source.
   */
  function Categorize(domain: string): (c: Category)
    ensures c.kind == Productive <==> domain in ProductiveSites
    ensures c.kind == Unproductive <==> domain !in ProductiveSites && domain in UnproductiveSites
    ensures c.kind == Productive ==> c.name == ProductiveSites[domain]
    ensures c.kind == Unproductive ==> c.name == UnproductiveSites[domain]
    ensures c.kind == Neutral ==> c.name == OtherLabel
    ensures c.name != ""
  {
    if domain in ProductiveSites then Category(Productive, ProductiveSites[domain])
    else if domain in UnproductiveSites then Category(Unproductive, UnproductiveSites[domain])
    else Category(Neutral, OtherLabel)
  }
}
