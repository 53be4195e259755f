/** The FAQ page: the list fetched once, narrowed by a free-text search over
    question and answer (ignoring case) and by one topic button, with a
    "Clear Filters" action that restores the full list. */
module FAQ {
  import opened Common

  datatype Faq = Faq(faqId: string, question: string, answer: string, category: string)

  /** The topic buttons besides "All Topics". */
  const Categories: seq<string> := ["Planning", "Tests", "Finance", "Work", "Application", "Visa", "Career"]

  /** The value of the "All Topics" button. */
  const AllTopics: string := "all"

  /** An FAQ is shown when the search is empty or occurs, ignoring case, in
      its question or its answer, and the topic is "all" or its category. */
  predicate Matches(f: Faq, search: string, category: string)
  {
    (search == "" ||
     Includes(ToLower(f.question), ToLower(search)) ||
     Includes(ToLower(f.answer), ToLower(search))) &&
    (category == AllTopics || f.category == category)
  }

  function Matcher(search: string, category: string): Faq -> bool
  {
    (f: Faq) => Matches(f, search, category)
  }

  /** `filteredFaqs`. */
  function Filtered(faqs: seq<Faq>, search: string, category: string): seq<Faq>
  {
    Filter(faqs, Matcher(search, category))
  }

  /** The shown list keeps the fetched order and holds exactly the matching
      entries. */
  lemma FilteredSpec(faqs: seq<Faq>, search: string, category: string)
    ensures IsSubsequence(Filtered(faqs, search, category), faqs)
    ensures |Filtered(faqs, search, category)| <= |faqs|
    ensures forall f :: f in Filtered(faqs, search, category) <==> f in faqs && Matches(f, search, category)
  {
    FilterIsSubsequence(faqs, Matcher(search, category));
    forall f ensures f in Filtered(faqs, search, category) <==> f in faqs && Matches(f, search, category) {
      FilterIn(faqs, Matcher(search, category), f);
    }
  }

  /** With no search and "All Topics" every FAQ is shown, in order. */
  lemma NoFilterShowsAll(faqs: seq<Faq>)
    ensures Filtered(faqs, "", AllTopics) == faqs
  {
    FilterAll(faqs, Matcher("", AllTopics));
  }

  /** Only the lower-cased search text matters: two searches that differ in
      case alone show the same list. */
  lemma SearchIgnoresCase(faqs: seq<Faq>, s: string, t: string, category: string)
    requires ToLower(s) == ToLower(t)
    ensures Filtered(faqs, s, category) == Filtered(faqs, t, category)
  {
    assert |s| == |t| by {
      assert |ToLower(s)| == |s| && |ToLower(t)| == |t|;
    }
    FilterSame(faqs, Matcher(s, category), Matcher(t, category));
  }

  /** A search that occurs in the question or the answer shows the entry
      under "All Topics", whatever the case of either side. */
  lemma FoundInQuestionOrAnswer(f: Faq, search: string)
    requires Includes(ToLower(f.question), ToLower(search)) || Includes(ToLower(f.answer), ToLower(search))
    ensures Filtered([f], search, AllTopics) == [f]
  {
    FilterAll([f], Matcher(search, AllTopics));
  }

  /** A chosen topic shows only entries of exactly that category, and an
      entry of another category is hidden whatever the search. */
  lemma TopicMatchesExactly(faqs: seq<Faq>, search: string, category: string)
    requires category != AllTopics
    ensures forall f :: f in Filtered(faqs, search, category) ==> f.category == category
    ensures forall f :: f in faqs && f.category != category ==> f !in Filtered(faqs, search, category)
  {
    FilteredSpec(faqs, search, category);
  }

  /** What the page holds: the fetched list, the loading flag, the search
      box and the selected topic. */
  datatype Page = Page(faqs: seq<Faq>, loading: bool, search: string, category: string)

  /** The page as first rendered. */
  const Initial: Page := Page([], true, "", AllTopics)

  /** `fetchFaqs`: a failed fetch keeps the empty list; either way loading
      ends. */
  function Fetched(p: Page, result: Option<seq<Faq>>): (r: Page)
    ensures !r.loading && r.search == p.search && r.category == p.category
    ensures r.faqs == if result.Some? then result.value else p.faqs
  {
    p.(faqs := if result.Some? then result.value else p.faqs, loading := false)
  }

  /** The "Clear Filters" button: both filters reset, so the whole list is
      shown again. */
  function ClearFilters(p: Page): (r: Page)
    ensures r.search == "" && r.category == AllTopics
    ensures r.faqs == p.faqs && r.loading == p.loading
    ensures Filtered(r.faqs, r.search, r.category) == p.faqs
  {
    NoFilterShowsAll(p.faqs);
    p.(search := "", category := AllTopics)
  }
}
