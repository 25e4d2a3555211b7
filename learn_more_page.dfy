/**
 * The "learn more" page: four tabs, each with its own content block, and an FAQ
 * accordion in which at most one answer is open.
 */
module LearnMore {
  import opened Wrappers
  import Seqs

  datatype Faq = Faq(question: string, answer: string)

  const Faqs: seq<Faq> := [
    Faq("How does Help work?",
      "Help connects you with local businesses through authentic reviews and recommendations from your community. Simply search for what you need, read reviews, and discover amazing places near you."),
    Faq("Is Help free to use?",
      "Yes! Help is completely free for users. You can search, read reviews, write reviews, and discover businesses without any cost."),
    Faq("How do you verify businesses?",
      "We have a comprehensive verification process that includes document verification, location verification, and quality checks to ensure all businesses on our platform are legitimate."),
    Faq("Can I trust the reviews?",
      "We use advanced algorithms and manual moderation to ensure all reviews are authentic. We also verify reviewers to maintain the quality of our community."),
    Faq("How can I add my business?",
      "Business owners can easily add their business through our business portal. The process is simple and includes verification steps to maintain platform quality.")
  ]

  /** The tab buttons' ids. */
  const TabIds: seq<string> := ["features", "how-it-works", "community", "business"]

  /** The ids the content blocks test `activeTab` against, in page order. */
  const ContentBlocks: seq<string> := ["features", "how-it-works", "community", "business"]

  // ---------------------------------------------------------------------------
  // The accordion

  /** A question's click: `expandedFaq === index ? null : index`. */
  function ToggledFaq(expanded: Option<nat>, i: nat): (r: Option<nat>)
    ensures expanded == Some(i) ==> r == None
    ensures expanded != Some(i) ==> r == Some(i)
  {
    if expanded == Some(i) then None else Some(i)
  }

  /** Whether answer `i` is shown. */
  predicate AnswerShown(expanded: Option<nat>, i: nat) {
    expanded == Some(i)
  }

  /** After any click, exactly the clicked answer is open, or none at all. */
  lemma ClickOpensAtMostClicked(expanded: Option<nat>, i: nat, j: nat)
    ensures AnswerShown(ToggledFaq(expanded, i), j) ==> j == i
    ensures AnswerShown(ToggledFaq(expanded, i), i) <==> !AnswerShown(expanded, i)
  {
  }

  /** Clicking the same question twice restores the accordion exactly when it was closed or showed that question. */
  lemma ClickTwice(expanded: Option<nat>, i: nat)
    ensures ToggledFaq(ToggledFaq(expanded, i), i) == expanded <==> expanded == None || expanded == Some(i)
  {
  }

  // ---------------------------------------------------------------------------
  // Tabs

  /** The content blocks whose condition `activeTab === id` holds. */
  function MatchingBlocks(activeTab: string): seq<string> {
    Seqs.Filter(ContentBlocks, Seqs.Equals(activeTab))
  }

  /** Every tab has exactly one content block; any other value would show none. */
  lemma OneBlockPerTab(activeTab: string)
    ensures activeTab in TabIds ==> MatchingBlocks(activeTab) == [activeTab]
    ensures activeTab !in TabIds ==> MatchingBlocks(activeTab) == []
  {
    var b := ContentBlocks;
    assert b[0][0] == 'f' && b[1][0] == 'h' && b[2][0] == 'c' && b[3][0] == 'b';
    assert Seqs.NoDuplicates(b);
    Seqs.FilterEquals(b, activeTab);
  }

  // ---------------------------------------------------------------------------
  // Page state

  class LearnMorePage {
    var activeTab: string
    var expandedFaq: Option<nat>

    /** A real tab is active, and an open answer is one of the FAQs. */
    predicate Valid()
      reads this
    {
      activeTab in TabIds && (expandedFaq.Some? ==> expandedFaq.value < |Faqs|)
    }

    constructor ()
      ensures Valid() && activeTab == "features" && expandedFaq == None
    {
      activeTab := "features";
      expandedFaq := None;
    }

    method SelectTab(id: string)
      requires Valid() && id in TabIds
      modifies this`activeTab
      ensures Valid() && activeTab == id
    {
      activeTab := id;
    }

    method ClickFaq(i: nat)
      requires Valid() && i < |Faqs|
      modifies this`expandedFaq
      ensures Valid() && expandedFaq == ToggledFaq(old(expandedFaq), i)
    {
      expandedFaq := if expandedFaq == Some(i) then None else Some(i);
    }
  }
}
