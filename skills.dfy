/** The skills section: the set of categories the visitor has expanded, the
    hovered category, the per-category lookups, and how many skills a card
    lists and what its "show more" button says. */
module Skills {
  import opened Common

  // ------------------------------------------------------- expanded set

  /** The expanded set after toggling `category`: its membership flips. */
  function Toggle(expanded: set<string>, category: string): (r: set<string>)
    ensures category in r <==> category !in expanded
    ensures forall other :: other != category ==> (other in r <==> other in expanded)
  {
    if category in expanded then expanded - {category} else expanded + {category}
  }

  /** Toggling the same category twice restores the expanded set. */
  lemma ToggleTwice(expanded: set<string>, category: string)
    ensures Toggle(Toggle(expanded, category), category) == expanded
  {
  }

  /** Toggles of two different categories can be made in either order. */
  lemma ToggleCommutes(expanded: set<string>, a: string, b: string)
    ensures Toggle(Toggle(expanded, a), b) == Toggle(Toggle(expanded, b), a)
  {
  }

  class SkillsView {
    var expanded: set<string>
    var hovered: Option<string>

    constructor ()
      ensures expanded == {} && hovered == None
    {
      expanded := {};
      hovered := None;
    }

    /** Copies the set, adds or deletes the category, stores the copy. */
    method ToggleCategory(category: string)
      modifies this
      ensures expanded == Toggle(old(expanded), category)
      ensures hovered == old(hovered)
    {
      var newExpanded := expanded;
      if category in newExpanded {
        newExpanded := newExpanded - {category};
      } else {
        newExpanded := newExpanded + {category};
      }
      expanded := newExpanded;
    }

    /** The mouse enters a category card. */
    method MouseEnter(category: string)
      modifies this
      ensures hovered == Some(category) && expanded == old(expanded)
    {
      hovered := Some(category);
    }

    /** The mouse leaves a category card, whichever it was. */
    method MouseLeave()
      modifies this
      ensures hovered == None && expanded == old(expanded)
    {
      hovered := None;
    }
  }

  // ------------------------------------------------------------ lookups

  datatype Icon = Code | Database | Zap | Brain

  const GenericDescription := "Technical expertise and tools"

  /** `getCategoryIcon`: the table's icon, or the code icon for other keys. */
  function CategoryIcon(category: string): (r: Icon)
    ensures category in CategoryTable ==> r == CategoryTable[category].icon
    ensures category !in CategoryTable ==> r == Code
  {
    match category
    case "development" => Code
    case "database" => Database
    case "languages" => Zap
    case "mlFrameworks" => Brain
    case _ => Code
  }

  /** `getCategoryColor`: the table's colour, or the accent for other keys. */
  function CategoryColor(category: string): (r: string)
    ensures category in CategoryTable ==> r == CategoryTable[category].color
    ensures category !in CategoryTable ==> r == Accent
  {
    match category
    case "development" => Accent
    case "database" => SuccessColor
    case "languages" => Secondary
    case "mlFrameworks" => Warning
    case _ => Accent
  }

  /** `getCategoryTitle`: the table's title, or the key itself for others. */
  function CategoryTitle(category: string): (r: string)
    ensures category in CategoryTable ==> r == CategoryTable[category].title
    ensures category !in CategoryTable ==> r == category
  {
    match category
    case "development" => "Development"
    case "database" => "Database"
    case "languages" => "Languages"
    case "mlFrameworks" => "ML Frameworks"
    case _ => category
  }

  /** `getCategoryDescription`: the table's text, or the generic one. */
  function CategoryDescription(category: string): (r: string)
    ensures category in CategoryTable ==> r == CategoryTable[category].description
    ensures category !in CategoryTable ==> r == GenericDescription
  {
    match category
    case "development" => "Full-stack web development and modern frameworks"
    case "database" => "Data storage, management, and analytics solutions"
    case "languages" => "Programming languages and core technologies"
    case "mlFrameworks" => "Machine learning and AI development tools"
    case _ => GenericDescription
  }

  /** The four lookups of a known category, as one record. */
  datatype CategoryInfo = CategoryInfo(icon: Icon, color: string, title: string, description: string)

  /** The known categories, written as a table. */
  const CategoryTable: map<string, CategoryInfo> := map[
    "development" := CategoryInfo(Code, Accent, "Development",
                                  "Full-stack web development and modern frameworks"),
    "database" := CategoryInfo(Database, SuccessColor, "Database",
                               "Data storage, management, and analytics solutions"),
    "languages" := CategoryInfo(Zap, Secondary, "Languages",
                                "Programming languages and core technologies"),
    "mlFrameworks" := CategoryInfo(Brain, Warning, "ML Frameworks",
                                   "Machine learning and AI development tools")
  ]

  /** What a card shows for any category key: the table entry for a known
      key; for any other key the code icon, the accent colour, the generic
      description and the key itself as its title. */
  function Lookup(category: string): (info: CategoryInfo)
    ensures category in CategoryTable ==> info == CategoryTable[category]
    ensures category !in CategoryTable ==>
      info == CategoryInfo(Code, Accent, category, GenericDescription)
  {
    CategoryInfo(CategoryIcon(category), CategoryColor(category),
                 CategoryTitle(category), CategoryDescription(category))
  }

  /** The titles tell the known categories apart. */
  lemma TitlesIdentifyKnownCategories(a: string, b: string)
    requires a in CategoryTable && b in CategoryTable
    ensures CategoryTitle(a) == CategoryTitle(b) <==> a == b
  {
  }

  // ------------------------------------------------------- visible slice

  /** A collapsed card lists this many skills. */
  const CollapsedLimit: nat := 8
  /** The "show more" button appears above this many skills. */
  const ButtonThreshold: nat := 5

  /** The skills a card lists: all of them when expanded, otherwise the first
      `CollapsedLimit`. */
  function VisibleSkills(skills: seq<string>, isExpanded: bool): (r: seq<string>)
    ensures isExpanded ==> r == skills
    ensures !isExpanded ==> r == Prefix(skills, CollapsedLimit)
  {
    if isExpanded then skills else Prefix(skills, CollapsedLimit)
  }

  /** How many skills expanding a collapsed card adds to the list. */
  function RevealedByExpanding(skills: seq<string>): (k: nat)
    ensures k == |VisibleSkills(skills, true)| - |VisibleSkills(skills, false)|
  {
    |skills| - Min(|skills|, CollapsedLimit)
  }

  datatype ButtonLabel = ShowLess | More(count: nat)

  /** The "show more" button as written: it exists above five skills and,
      collapsed, reads "+(length - 5) More". */
  function ShowMoreButton(skills: seq<string>, isExpanded: bool): (b: Option<ButtonLabel>)
    ensures b.Some? <==> |skills| > ButtonThreshold
    ensures b.Some? && isExpanded ==> b.value == ShowLess
    ensures b.Some? && !isExpanded ==> b.value == More(|skills| - ButtonThreshold)
  {
    if |skills| > ButtonThreshold then
      Some(if isExpanded then ShowLess else More(|skills| - ButtonThreshold))
    else None
  }

  /** As written, the count on the collapsed button never equals the number
      of skills expanding reveals: it is three too many above eight skills,
      and with six to eight skills it promises more while nothing is hidden. */
  lemma ShowMoreOverstates(skills: seq<string>)
    requires |skills| > ButtonThreshold
    ensures ShowMoreButton(skills, false).Some?
    ensures ShowMoreButton(skills, false).value.count == RevealedByExpanding(skills) + 3
      || (|skills| <= CollapsedLimit && RevealedByExpanding(skills) == 0)
    ensures ShowMoreButton(skills, false).value.count != RevealedByExpanding(skills)
  {
  }

  /** The machine learning category of the data: eight entries. */
  const MlFrameworks: seq<string> := ["Numpy", "Pandas", "Scikit-learn", "Seaborn",
                                      "Random Forest", "KNN", "Decision Tree", "Matplotlib"]

  /** On it the collapsed card lists all eight skills and a "+3 More" button,
      and expanding it lists no new skill. */
  lemma MlFrameworksButtonPromisesNothing()
    ensures VisibleSkills(MlFrameworks, false) == MlFrameworks
    ensures ShowMoreButton(MlFrameworks, false) == Some(More(3))
    ensures VisibleSkills(MlFrameworks, true) == VisibleSkills(MlFrameworks, false)
  {
    assert MlFrameworks[..8] == MlFrameworks;
  }

  /** The button as evidently intended: it exists when there is something to
      show or hide, and, collapsed, counts the skills expanding reveals. */
  function CorrectedShowMoreButton(skills: seq<string>, isExpanded: bool): (b: Option<ButtonLabel>)
    ensures b.Some? <==> |skills| > CollapsedLimit
    ensures b.Some? && isExpanded ==> b.value == ShowLess
  {
    if |skills| > CollapsedLimit then
      Some(if isExpanded then ShowLess else More(|skills| - CollapsedLimit))
    else None
  }

  /** With the corrected button, the count it shows is exactly the number of
      skills expanding adds, and there is a button exactly when that number
      is positive. */
  lemma CorrectedButtonCountsHidden(skills: seq<string>)
    ensures CorrectedShowMoreButton(skills, false).Some? <==> RevealedByExpanding(skills) > 0
    ensures CorrectedShowMoreButton(skills, false).Some? ==>
      CorrectedShowMoreButton(skills, false).value == More(RevealedByExpanding(skills))
      && VisibleSkills(skills, false) + skills[|VisibleSkills(skills, false)|..] == skills
  {
    if |skills| > CollapsedLimit {
      TruncateAccountsForAll(skills, CollapsedLimit);
    }
  }
}
