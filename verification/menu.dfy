/**
 * The public menu section: a row of category buttons (the first six unless expanded) that
 * can be scrolled sideways, and the dishes of the selected category.
 */
module Menu {
  import opened Wrappers
  import Seqs

  datatype LocalizedText = LocalizedText(uz: string, ru: string, en: string)

  datatype Category = Category(id: string, name: LocalizedText, categoryType: string)

  datatype Dish = Dish(
    id: string, name: LocalizedText, description: LocalizedText,
    price: int, image: string, dishType: string)

  /** How far one click on an arrow scrolls the category row, in pixels. */
  const ScrollAmount := 200

  /** How many categories are shown before "view all" is clicked. */
  const CollapsedCount := 6

  /** The categories the section ships with. */
  const DemoCategories := [
    Category("1", LocalizedText("Osh", "Плов", "Plov"), "osh"),
    Category("2", LocalizedText("Steak", "Стейк", "Steak"), "steak"),
    Category("3", LocalizedText("Ichimliklar", "Напитки", "Drinks"), "drinks"),
    Category("4", LocalizedText("Kalyan", "Кальян", "Hookah"), "hookah"),
    Category("5", LocalizedText("Salatlar", "Салаты", "Salads"), "salads"),
    Category("6", LocalizedText("Sho'rvalar", "Супы", "Soups"), "soups"),
    Category("7", LocalizedText("Desert", "Десерт", "Dessert"), "dessert"),
    Category("8", LocalizedText("Mazzalar", "Закуски", "Appetizers"), "appetizers")
  ]

  function Min(a: int, b: int): int {
    if a <= b then a else b
  }

  /** `filteredItems`: the dishes whose type is the category's type, in their original order
      and multiplicity. */
  function DishesOf(dishes: seq<Dish>, category: Category): (r: seq<Dish>)
    ensures Seqs.IsSubsequence(r, dishes)
    ensures forall d :: d in r <==> d in dishes && d.dishType == category.categoryType
    ensures forall d :: multiset(r)[d] == if d.dishType == category.categoryType then multiset(dishes)[d] else 0
  {
    Seqs.Filter(dishes, (d: Dish) => d.dishType == category.categoryType)
  }

  /** `visibleCategories`: a prefix of the categories, all of them when expanded and
      otherwise the first six (or fewer, when there are fewer). */
  function VisibleCategories(categories: seq<Category>, showAll: bool): (r: seq<Category>)
    ensures |r| == if showAll then |categories| else Min(CollapsedCount, |categories|)
    ensures r == categories[..|r|]
  {
    if showAll then categories else categories[..Min(CollapsedCount, |categories|)]
  }

  /** Whether the "view all" button is drawn: exactly when some category is hidden. */
  predicate ViewAllShown(categories: seq<Category>, showAll: bool)
    ensures ViewAllShown(categories, showAll) <==> |VisibleCategories(categories, showAll)| < |categories|
  {
    !showAll && |categories| > CollapsedCount
  }

  /** With the categories the section ships with, the row starts with the first six, and the
      "view all" button is drawn. */
  lemma DemoCategoriesStartCollapsed()
    ensures VisibleCategories(DemoCategories, false) == DemoCategories[..6]
    ensures ViewAllShown(DemoCategories, false)
  {
  }

  datatype Direction = Left | Right

  /** The new scroll offset of the category row after one arrow click. */
  function NextScrollPosition(position: int, direction: Direction): (r: int)
    ensures direction == Right ==> r == position + ScrollAmount
    ensures direction == Left ==> r >= 0 && (r == 0 || r == position - ScrollAmount)
    ensures direction == Left && position >= ScrollAmount ==> r == position - ScrollAmount
  {
    match direction
    case Left => if position - ScrollAmount >= 0 then position - ScrollAmount else 0
    case Right => position + ScrollAmount
  }

  /** Scrolling never makes the offset negative. */
  lemma ScrollStaysNonNegative(position: int, direction: Direction)
    requires position >= 0
    ensures NextScrollPosition(position, direction) >= 0
  {
  }

  /** A click to the left undoes a click to the right. */
  lemma LeftUndoesRight(position: int)
    requires position >= 0
    ensures NextScrollPosition(NextScrollPosition(position, Right), Left) == position
  {
  }

  /** A click to the right undoes a click to the left unless the left click hit the start. */
  lemma RightUndoesLeft(position: int)
    ensures NextScrollPosition(NextScrollPosition(position, Left), Right) == position
        <==> position >= ScrollAmount
  {
  }

  /** The state of the menu section. */
  class MenuSection {
    const categories: seq<Category>
    const dishes: seq<Dish>
    var selectedCategory: Category
    var showAllCategories: bool
    var selectedItem: Option<Dish>
    var categoryScrollPosition: int

    /** The selected category is one of the categories and the row is never scrolled to a
        negative offset. */
    ghost predicate Valid()
      reads this
    {
      selectedCategory in categories && categoryScrollPosition >= 0
    }

    /** The section as it mounts: the first category selected, the row collapsed and
        unscrolled, no dish open. */
    constructor (categories: seq<Category>, dishes: seq<Dish>)
      requires |categories| > 0
      ensures Valid()
      ensures this.categories == categories && this.dishes == dishes
      ensures selectedCategory == categories[0] && !showAllCategories
      ensures selectedItem == None && categoryScrollPosition == 0
    {
      this.categories := categories;
      this.dishes := dishes;
      selectedCategory := categories[0];
      showAllCategories := false;
      selectedItem := None;
      categoryScrollPosition := 0;
    }

    /** The dishes the grid shows: those of the selected category's type, in order. */
    function Shown(): (r: seq<Dish>)
      reads this
      ensures Seqs.IsSubsequence(r, dishes)
      ensures forall d :: d in r <==> d in dishes && d.dishType == selectedCategory.categoryType
    {
      DishesOf(dishes, selectedCategory)
    }

    /** A click on a category button (only drawn buttons can be clicked). */
    method SelectCategory(category: Category)
      requires Valid()
      requires category in VisibleCategories(categories, showAllCategories)
      modifies this`selectedCategory
      ensures Valid() && selectedCategory == category
    {
      selectedCategory := category;
    }

    /** A click on "view all". */
    method ShowAllCategories()
      requires Valid()
      modifies this`showAllCategories
      ensures Valid() && showAllCategories
      ensures VisibleCategories(categories, showAllCategories) == categories
      ensures !ViewAllShown(categories, showAllCategories)
    {
      showAllCategories := true;
    }

    /** `scrollCategories`: moves the row when its container is on the page
        (`containerPresent`), and does nothing otherwise. */
    method ScrollCategories(direction: Direction, containerPresent: bool)
      requires Valid()
      modifies this`categoryScrollPosition
      ensures Valid()
      ensures categoryScrollPosition ==
        if containerPresent then NextScrollPosition(old(categoryScrollPosition), direction)
        else old(categoryScrollPosition)
    {
      if containerPresent {
        categoryScrollPosition := NextScrollPosition(categoryScrollPosition, direction);
      }
    }

    /** Opening a dish's details. */
    method SelectItem(dish: Dish)
      requires Valid()
      modifies this`selectedItem
      ensures Valid()
      ensures selectedItem == Some(dish)
    {
      selectedItem := Some(dish);
    }

    /** Closing the details dialog. */
    method CloseItem()
      requires Valid()
      modifies this`selectedItem
      ensures Valid()
      ensures selectedItem == None
    {
      selectedItem := None;
    }
  }
}
