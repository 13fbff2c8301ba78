/** The landing page's FAQ list, narrowed by a search box and a category tab. */
module Faq {
  import opened Common
  import opened Text

  datatype FaqItem = FaqItem(id: string, category: string, question: string, answer: string, highlight: string)

  /** The tab that selects every item. */
  const AllTab := "all"

  /** The lower-cased query occurs in the lower-cased question or answer; the
      query is not trimmed and the highlight is not searched. */
  predicate MatchesSearch(item: FaqItem, searchQuery: string)
  {
    Includes(Lower(item.question), Lower(searchQuery)) || Includes(Lower(item.answer), Lower(searchQuery))
  }

  predicate MatchesCategory(item: FaqItem, activeCategory: string)
  {
    activeCategory == AllTab || item.category == activeCategory
  }

  /** `filteredItems`. */
  function FilteredItems(items: seq<FaqItem>, searchQuery: string, activeCategory: string): seq<FaqItem>
  {
    Filter(items, item => MatchesSearch(item, searchQuery) && MatchesCategory(item, activeCategory))
  }

  /** The list is the order-preserving sublist of exactly the items that pass
      both tests. */
  lemma FilteredItemsSpec(items: seq<FaqItem>, searchQuery: string, activeCategory: string)
    ensures var r := FilteredItems(items, searchQuery, activeCategory);
      && IsSubsequence(r, items)
      && (forall i :: 0 <= i < |r| ==>
            r[i] in items && MatchesSearch(r[i], searchQuery) && MatchesCategory(r[i], activeCategory))
      && (forall i ::
            (0 <= i < |items| && MatchesSearch(items[i], searchQuery) && MatchesCategory(items[i], activeCategory))
            ==> items[i] in r)
  {
    FilterIsSubsequence(items, item => MatchesSearch(item, searchQuery) && MatchesCategory(item, activeCategory));
  }

  /** A search matches an item exactly when the lower-cased query occurs, at
      some position, in the lower-cased question or answer. */
  lemma MatchesSearchIff(item: FaqItem, searchQuery: string)
    ensures MatchesSearch(item, searchQuery) <==>
              Occurs(Lower(item.question), Lower(searchQuery)) || Occurs(Lower(item.answer), Lower(searchQuery))
  {
    IncludesIffOccurs(Lower(item.question), Lower(searchQuery));
    IncludesIffOccurs(Lower(item.answer), Lower(searchQuery));
  }

  /** The empty query matches every item. */
  lemma EmptyQueryMatchesAll(item: FaqItem)
    ensures MatchesSearch(item, "")
  {
    IncludesEmpty(Lower(item.question));
  }

  /** With the empty query and the "all" tab every item is listed. */
  lemma EmptyQueryAllTabListsEverything(items: seq<FaqItem>)
    ensures FilteredItems(items, "", AllTab) == items
  {
    forall i | 0 <= i < |items| ensures MatchesSearch(items[i], "") && MatchesCategory(items[i], AllTab) {
      EmptyQueryMatchesAll(items[i]);
    }
    FilterAll(items, item => MatchesSearch(item, "") && MatchesCategory(item, AllTab));
  }

  /** Any tab other than "all" keeps an item only when it is the item's own
      category. */
  lemma OtherTabByEquality(item: FaqItem, activeCategory: string)
    requires activeCategory != AllTab
    ensures MatchesCategory(item, activeCategory) <==> item.category == activeCategory
  {
  }
}
