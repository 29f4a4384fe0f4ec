/** The four feedback categories (`FeedbackCategory`), their wire names and
    the labels every page shows for them. */
module Categories {
  import opened Wrappers

  datatype Category = Gratitude | Admiration | Appreciation | Respect

  /** A category selector: `FeedbackCategory | 'all'`. */
  datatype CategoryFilter = AnyCategory | OnlyCategory(c: Category)

  const AllCategories: seq<Category> := [Gratitude, Admiration, Appreciation, Respect]

  /** The string a category is sent and compared as. */
  function CategoryKey(c: Category): string {
    match c
    case Gratitude => "gratitude"
    case Admiration => "admiration"
    case Appreciation => "appreciation"
    case Respect => "respect"
  }

  function CategoryLabel(c: Category): string {
    match c
    case Gratitude => "ありがとう"
    case Admiration => "すごい！"
    case Appreciation => "お疲れさま"
    case Respect => "さすが"
  }

  /** The enum check: the category a string names, if it names one. */
  function ParseCategory(s: string): (r: Option<Category>)
    ensures r.Some? ==> CategoryKey(r.value) == s
  {
    if s == "gratitude" then Some(Gratitude)
    else if s == "admiration" then Some(Admiration)
    else if s == "appreciation" then Some(Appreciation)
    else if s == "respect" then Some(Respect)
    else None
  }

  /** Every category's name is accepted and names that category back, and
      no two categories share a name or a label. */
  lemma CategoryNames(c: Category, d: Category)
    ensures ParseCategory(CategoryKey(c)) == Some(c)
    ensures CategoryKey(c) == CategoryKey(d) ==> c == d
    ensures CategoryLabel(c) == CategoryLabel(d) ==> c == d
    ensures c in AllCategories
  {
  }
}
