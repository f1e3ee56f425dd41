/** The FAQ page (frontend/src/pages/FAQPage.jsx): sixteen fixed questions,
    an accordion in which at most one answer is open, and a case-insensitive
    search over questions and answers. */
module FaqPage {
  import opened Common
  import opened Text

  datatype Faq = Faq(category: string, question: string, answer: string)

  /** The page's `faqs` array. */
  const Faqs: seq<Faq> := [
    Faq("General",
        "What is Symptom Checker?",
        "Symptom Checker is a tool that helps you identify possible diseases based on the symptoms you provide."),
    Faq("Usage",
        "How do I use the Symptom Checker?",
        "You simply type the symptoms you are experiencing in the input field, and the tool will provide predictions based on your symptoms."),
    Faq("Account",
        "Do I need to be logged in to use the Symptom Checker?",
        "Yes, you need to be logged in to use the Symptom Checker. Logging in allows you to save your symptoms and predictions for future reference in the History page."),
    Faq("Accuracy",
        "How accurate is the Symptom Checker?",
        "The Symptom Checker provides general predictions based on available data, but it\U{2019}s important to consult a healthcare professional for an accurate diagnosis."),
    Faq("Functionality",
        "Can I add multiple symptoms?",
        "Yes, you can add multiple symptoms and the tool will predict possible conditions based on the combination of symptoms."),
    Faq("Cost",
        "Is the Symptom Checker free to use?",
        "Yes, the Symptom Checker is completely free to use."),
    Faq("Privacy",
        "Is my data stored when I use the Symptom Checker?",
        "Yes, your data is securely stored in your account history so you can review your past predictions anytime. We prioritize your privacy and ensure your data is protected."),
    Faq("Privacy",
        "Is my information shared with third parties?",
        "No, we do not share your personal information with third parties. Your data is confidential and only used for providing predictions during your session."),
    Faq("Troubleshooting",
        "Why am I not getting results from the Symptom Checker?",
        "If you're not getting results, please ensure you're entering the symptoms correctly and try again. If the issue persists, refresh the page or try using a different browser."),
    Faq("Technical",
        "What browsers are supported for Symptom Checker?",
        "The Symptom Checker works best with modern browsers such as Chrome, Firefox, Safari, and Edge. Ensure you're using the latest version of your browser for optimal performance."),
    Faq("Account",
        "How do I reset my password?",
        "Password reset functionality is coming soon. Please check back later for updates."),
    Faq("Account",
        "How can I delete my account?",
        "You can delete your account from the account settings page. If you need assistance, please contact our support team."),
    Faq("Accuracy",
        "Can Symptom Checker diagnose all diseases?",
        "No, the Symptom Checker is a general tool for predicting possible conditions based on symptoms. It cannot diagnose every disease and should not replace professional medical advice."),
    Faq("Cost",
        "Are there any paid features in Symptom Checker?",
        "Currently, Symptom Checker is completely free with no paid features. We aim to provide access to all users without any cost barriers."),
    Faq("Miscellaneous",
        "Can I use Symptom Checker on mobile devices?",
        "Yes, the Symptom Checker is fully responsive and can be used on mobile devices, including smartphones and tablets."),
    Faq("Miscellaneous",
        "How do I contact customer support?",
        "You can contact our customer support team by visiting the 'Support Page' in the menu. Our team is available to assist you with any questions or issues you may have.")
  ]

  /** `faq.question.toLowerCase().includes(q.toLowerCase()) ||
      faq.answer.toLowerCase().includes(q.toLowerCase())`. */
  predicate Matches(f: Faq, query: string) {
    Contains(Lower(f.question), Lower(query)) || Contains(Lower(f.answer), Lower(query))
  }

  /** `filteredFaqs`: exactly the entries whose question or answer contains
      the query, ignoring case, in their original order. */
  function FilteredFaqs(faqs: seq<Faq>, query: string): (r: seq<Faq>)
    ensures |r| <= |faqs|
    ensures forall i :: 0 <= i < |r| ==> r[i] in faqs && Matches(r[i], query)
    ensures forall i :: 0 <= i < |faqs| && Matches(faqs[i], query) ==> faqs[i] in r
  {
    Filter(faqs, f => Matches(f, query))
  }

  /** The filter keeps the order of the list: the matches of an earlier part
      come before those of a later part. */
  lemma FilteredInOrder(front: seq<Faq>, back: seq<Faq>, query: string)
    ensures FilteredFaqs(front + back, query) == FilteredFaqs(front, query) + FilteredFaqs(back, query)
  {
    FilterAppend(front, back, f => Matches(f, query));
  }

  /** An empty search shows every entry. */
  lemma EmptySearchShowsAll(faqs: seq<Faq>)
    ensures FilteredFaqs(faqs, "") == faqs
  {
    forall i | 0 <= i < |faqs| ensures Matches(faqs[i], "") {
      ContainsEmpty(Lower(faqs[i].question));
    }
    FilterAll(faqs, f => Matches(f, ""));
  }

  /** Hence all sixteen questions are listed before anything is typed. */
  lemma EmptySearchShowsSixteen()
    ensures |FilteredFaqs(Faqs, "")| == 16
  {
    EmptySearchShowsAll(Faqs);
  }

  /** The search ignores case: typing the query in capitals lists the same entries. */
  lemma SearchIgnoresCase(faqs: seq<Faq>, query: string)
    ensures FilteredFaqs(faqs, Upper(query)) == FilteredFaqs(faqs, query)
  {
    LowerUpper(query);
    FilterCongruent(faqs, f => Matches(f, Upper(query)), f => Matches(f, query));
  }

  /** `handleToggle(index)`'s new open entry: none when `index` was open,
      `index` otherwise. */
  function Toggled(active: Option<nat>, index: nat): (r: Option<nat>)
    ensures r.None? <==> active == Some(index)
    ensures r.Some? ==> r.value == index
  {
    if active == Some(index) then None else Some(index)
  }

  /** Toggling the same entry twice gives back the previous state exactly when
      nothing or that same entry was open; if another entry was open, the
      first toggle opens `index` and the second closes it, leaving none open. */
  lemma ToggleTwice(active: Option<nat>, index: nat)
    ensures Toggled(Toggled(active, index), index) == active <==> active.None? || active == Some(index)
    ensures active.Some? && active != Some(index) ==> Toggled(Toggled(active, index), index).None?
  {
  }

  class FaqList {
    var activeIndex: Option<nat>
    var searchQuery: string

    constructor()
      ensures activeIndex == None && searchQuery == ""
    {
      activeIndex, searchQuery := None, "";
    }

    /** The entries on screen. */
    function Shown(): seq<Faq>
      reads this
    {
      FilteredFaqs(Faqs, searchQuery)
    }

    /** `handleToggle(index)`; the query is kept. */
    method Toggle(index: nat)
      modifies this
      ensures activeIndex == Toggled(old(activeIndex), index)
      ensures searchQuery == old(searchQuery)
    {
      activeIndex := Toggled(activeIndex, index);
    }

    /** `handleSearchChange`: only the query changes; the open index is kept,
        though it now counts positions in a different list. */
    method SearchChange(value: string)
      modifies this
      ensures searchQuery == value && activeIndex == old(activeIndex)
    {
      searchQuery := value;
    }

    /** `handleClearSearch`: the query is emptied (so every entry is shown,
        by `EmptySearchShowsAll`). */
    method ClearSearch()
      modifies this
      ensures searchQuery == "" && activeIndex == old(activeIndex)
    {
      searchQuery := "";
    }
  }
}
