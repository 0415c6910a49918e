/** Worked examples of the assistant's behaviour on concrete messages.  Each
    example first bounds the characters of its message by a small alphabet,
    then rules out the keyword lists whose every word has a character outside
    that alphabet, and then draws the conclusion about the reply. */
module Scenarios {
  import opened Wrappers
  import opened Text
  import opened TripContext
  import opened Classifier
  import opened ClassifierProps
  import opened Chat

  /** A message with "weather" in it gets the weather reply. */
  lemma WeatherMentioned(s: string, before: string, after: string)
    requires s == before + "weather" + after
    ensures Classify(s) == Weather
  {
    ContainsInConcat(before, "weather", after, "weather");
  }

  /** A message with a budget marker in it marks the budget in the context. */
  lemma MarkerMentioned(s: string, before: string, k: int, after: string)
    requires 0 <= k < |BudgetMarkers| && s == before + BudgetMarkers[k] + after
    ensures MentionsBudget(s)
  {
    ContainsInConcat(before, BudgetMarkers[k], after, BudgetMarkers[k]);
  }

  lemma CheapMarksBudget(s: string)
    requires s == "what's the weather and is it cheap?"
    ensures MentionsBudget(s)
  {
    MarkerMentioned(s, "what's the weather and is it ", 2, "?");
  }

  /** Priority order: a message about the weather that also says "cheap" gets
      the weather reply, while the context still records the budget mention. */
  lemma WeatherBeatsCheap(s: string)
    requires s == "what's the weather and is it cheap?"
    ensures Classify(s) == Weather
    ensures Merge(InitialContext(), s).budget == Mentioned
  {
    WeatherMentioned(s, "what's the ", " and is it cheap?");
    CheapMarksBudget(s);
  }

  const Going: string := "i'm going " + "to tokyo " + "in march"

  const GoingAlphabet := {'i', '\'', 'm', ' ', 'g', 'o', 'n', 't', 'k', 'y', 'a', 'r', 'c', 'h'}

  lemma GoingLetters(s: string)
    requires s == Going
    ensures forall c :: c in s ==> c in GoingAlphabet
  {
  }

  /** "rain" is spelt with letters the message has, but the only 'r' is
      followed by 'c'. */
  lemma GoingLacksRain(s: string)
    requires s == Going
    ensures !Contains(s, "rain")
  {
    assert s == "i'm going to tokyo in ma" + "rch";
    NotContainedAcrossSplit("i'm going to tokyo in ma", "rch", "rain");
  }

  lemma GoingMissesWeather(s: string)
    requires forall c :: c in s ==> c in GoingAlphabet
    requires !Contains(s, "rain")
    ensures !ContainsAny(s, WeatherWords)
  {
    ContainedCharsOccur(s, "weather", 0);
    ContainedCharsOccur(s, "sunny", 0);
    ContainedCharsOccur(s, "temperature", 1);
  }

  lemma GoingMissesCultureAndBudget(s: string)
    requires forall c :: c in s ==> c in GoingAlphabet
    ensures !ContainsAny(s, CultureWords) && !ContainsAny(s, BudgetWords)
  {
    NoneContainedOutside(s, GoingAlphabet, CultureWords, [1, 1, 0, 2]);
    NoneContainedOutside(s, GoingAlphabet, BudgetWords, [0, 2, 3, 2]);
  }

  lemma GoingMissesLaterLists(s: string)
    requires forall c :: c in s ==> c in GoingAlphabet
    ensures !ContainsAny(s, LanguageWords) && !ContainsAny(s, PlanningWords)
  {
    NoneContainedOutside(s, GoingAlphabet, LanguageWords, [0, 4, 0, 4]);
    NoneContainedOutside(s, GoingAlphabet, PlanningWords, [0, 4, 0, 3]);
  }

  lemma GoingHasTokyo(s: string)
    requires s == Going
    ensures Contains(s, "tokyo")
  {
    assert s == "i'm going to " + "tokyo" + " in march";
    ContainsInConcat("i'm going to ", "tokyo", " in march", "tokyo");
  }

  lemma TokyoFound(s: string)
    requires forall c :: c in s ==> c in GoingAlphabet
    requires Contains(s, "tokyo")
    ensures FindDestination(s) == Some("tokyo")
  {
    ContainedCharsOccur(s, "paris", 0);
    FirstContainedIsEarliest(s, Destinations, 1);
  }

  /** "i'm going to tokyo in march": no keyword applies and tokyo is found. */
  lemma TokyoIsOverview(s: string)
    requires s == Going
    ensures FindDestination(s) == Some("tokyo")
    ensures Classify(s) == Overview
  {
    GoingLetters(s);
    GoingLacksRain(s);
    GoingMissesWeather(s);
    GoingMissesCultureAndBudget(s);
    GoingMissesLaterLists(s);
    GoingHasTokyo(s);
    TokyoFound(s);
  }

  lemma LowerGoingPieces(a: string, b: string, c: string)
    requires a == "I'm going " && b == "to Tokyo " && c == "in March"
    ensures ToLower(a + b + c) == Going
  {
    ToLowerConcat(a + b, c);
    ToLowerConcat(a, b);
  }

  lemma LowerGoingToTokyo(raw: string)
    requires raw == "I'm going to Tokyo in March"
    ensures ToLower(raw) == Going
  {
    assert raw == "I'm going " + "to Tokyo " + "in March";
    LowerGoingPieces("I'm going ", "to Tokyo ", "in March");
  }

  lemma CapitalTokyo()
    ensures Capitalize("tokyo") == "Tokyo"
  {
  }

  /** The overview for tokyo opens with "Tokyo is an amazing choice!". */
  lemma TokyoReply(s: string)
    requires s == Going
    ensures GenerateReply(s).features == ["destination", "planning", "comprehensive"]
    ensures "Tokyo" + AmazingChoice <= GenerateReply(s).text
  {
    TokyoIsOverview(s);
    OverviewReply(s);
    OverviewOpening("tokyo");
    CapitalTokyo();
  }

  /** "I'm going to Tokyo in March", as typed, gets the overview of Tokyo. */
  lemma GoingToTokyo(raw: string)
    requires raw == "I'm going to Tokyo in March"
    ensures Classify(ToLower(raw)) == Overview
    ensures ReplyTo(raw).features == ["destination", "planning", "comprehensive"]
    ensures "Tokyo" + AmazingChoice <= ReplyTo(raw).text
  {
    LowerGoingToTokyo(raw);
    TokyoIsOverview(ToLower(raw));
    TokyoReply(ToLower(raw));
  }

  lemma HelpLetters(s: string)
    requires s == "help"
    ensures forall c :: c in s ==> c in HelpAlphabet
  {
  }

  const HelpAlphabet := {'h', 'e', 'l', 'p'}

  lemma HelpMissesFirstLists(s: string)
    requires forall c :: c in s ==> c in HelpAlphabet
    ensures !ContainsAny(s, WeatherWords) && !ContainsAny(s, CultureWords) && !ContainsAny(s, BudgetWords)
  {
    NoneContainedOutside(s, HelpAlphabet, WeatherWords, [0, 0, 0, 0]);
    NoneContainedOutside(s, HelpAlphabet, CultureWords, [0, 0, 1, 0]);
    NoneContainedOutside(s, HelpAlphabet, BudgetWords, [0, 0, 0, 0]);
  }

  lemma HelpMissesLaterLists(s: string)
    requires forall c :: c in s ==> c in HelpAlphabet
    ensures !ContainsAny(s, LanguageWords) && !ContainsAny(s, PlanningWords) && !ContainsAny(s, Destinations)
  {
    NoneContainedOutside(s, HelpAlphabet, LanguageWords, [1, 0, 0, 0]);
    NoneContainedOutside(s, HelpAlphabet, PlanningWords, [2, 0, 0, 0]);
    NoneContainedOutside(s, HelpAlphabet, Destinations, [1, 0, 1, 0, 0, 0, 0, 0, 0, 0, 0, 0, 0, 0]);
  }

  /** A message spelt with the letters of "help" that contains "help" gets
      the capability summary. */
  lemma HelpClassified(s: string)
    requires forall c :: c in s ==> c in HelpAlphabet
    requires Contains(s, "help")
    ensures Classify(s) == Help
  {
    HelpMissesFirstLists(s);
    HelpMissesLaterLists(s);
  }

  /** "help" gets the capability summary. */
  lemma HelpRequest(s: string)
    requires s == "help"
    ensures Classify(s) == Help
  {
    HelpLetters(s);
    assert s <= s;
    HelpClassified(s);
  }

  lemma EmptyMissesFirstLists(s: string)
    requires s == []
    ensures !ContainsAny(s, WeatherWords) && !ContainsAny(s, CultureWords) && !ContainsAny(s, BudgetWords)
  {
    NoneContainedOutside(s, {}, WeatherWords, [0, 0, 0, 0]);
    NoneContainedOutside(s, {}, CultureWords, [0, 0, 0, 0]);
    NoneContainedOutside(s, {}, BudgetWords, [0, 0, 0, 0]);
  }

  lemma EmptyMissesLaterLists(s: string)
    requires s == []
    ensures !ContainsAny(s, LanguageWords) && !ContainsAny(s, PlanningWords)
    ensures !ContainsAny(s, Destinations) && !ContainsAny(s, HelpWords)
  {
    NoneContainedOutside(s, {}, LanguageWords, [0, 0, 0, 0]);
    NoneContainedOutside(s, {}, PlanningWords, [0, 0, 0, 0]);
    NoneContainedOutside(s, {}, Destinations, [0, 0, 0, 0, 0, 0, 0, 0, 0, 0, 0, 0, 0, 0]);
    NoneContainedOutside(s, {}, HelpWords, [0, 0]);
  }

  /** The empty message matches nothing and gets the general reply. */
  lemma EmptyMessageIsGeneral(s: string)
    requires s == ""
    ensures Classify(s) == General
  {
    EmptyMissesFirstLists(s);
    EmptyMissesLaterLists(s);
  }

  lemma DollarLetters(s: string)
    requires s == "is $200 enough?"
    ensures forall c :: c in s ==> c in DollarAlphabet
  {
  }

  const DollarAlphabet := {'i', 's', ' ', '$', '2', '0', 'e', 'n', 'o', 'u', 'g', 'h', '?'}

  lemma DollarMissesFirstLists(s: string)
    requires forall c :: c in s ==> c in DollarAlphabet
    ensures !ContainsAny(s, WeatherWords) && !ContainsAny(s, CultureWords) && !ContainsAny(s, BudgetWords)
  {
    NoneContainedOutside(s, DollarAlphabet, WeatherWords, [0, 0, 4, 0]);
    NoneContainedOutside(s, DollarAlphabet, CultureWords, [0, 0, 1, 0]);
    NoneContainedOutside(s, DollarAlphabet, BudgetWords, [0, 0, 0, 0]);
  }

  lemma DollarMissesLaterLists(s: string)
    requires forall c :: c in s ==> c in DollarAlphabet
    ensures !ContainsAny(s, LanguageWords) && !ContainsAny(s, PlanningWords) && !ContainsAny(s, HelpWords)
  {
    NoneContainedOutside(s, DollarAlphabet, LanguageWords, [0, 0, 1, 0]);
    NoneContainedOutside(s, DollarAlphabet, PlanningWords, [0, 1, 1, 0]);
    NoneContainedOutside(s, DollarAlphabet, HelpWords, [2, 0]);
  }

  lemma DollarNamesNoDestination(s: string)
    requires forall c :: c in s ==> c in DollarAlphabet
    ensures !ContainsAny(s, Destinations)
  {
    NoneContainedOutside(s, DollarAlphabet, Destinations, [0, 0, 0, 2, 0, 0, 0, 0, 0, 1, 1, 0, 1, 2]);
  }

  lemma DollarIsGeneral(s: string)
    requires s == "is $200 enough?"
    ensures Classify(s) == General
  {
    DollarLetters(s);
    DollarMissesFirstLists(s);
    DollarMissesLaterLists(s);
    DollarNamesNoDestination(s);
  }

  /** The two budget vocabularies differ: "$" marks the budget in the context
      but does not select the budget reply. */
  lemma DollarIsNotABudgetQuestion(s: string)
    requires s == "is $200 enough?"
    ensures MentionsBudget(s)
    ensures Classify(s) == General
  {
    DollarIsGeneral(s);
    DollarAndExpensiveMarkBudget(s, "too expensive");
  }

  lemma MoneyLetters(s: string)
    requires s == "what about money?"
    ensures forall c :: c in s ==> c in MoneyAlphabet
  {
  }

  const MoneyAlphabet := {'w', 'h', 'a', 't', ' ', 'b', 'o', 'u', 'm', 'n', 'e', 'y', '?'}

  lemma MoneyMissesLists(s: string)
    requires forall c :: c in s ==> c in MoneyAlphabet
    ensures !ContainsAny(s, WeatherWords) && !ContainsAny(s, CultureWords) && !ContainsAny(s, BudgetMarkers)
  {
    NoneContainedOutside(s, MoneyAlphabet, WeatherWords, [6, 0, 0, 3]);
    NoneContainedOutside(s, MoneyAlphabet, CultureWords, [0, 0, 2, 1]);
    NoneContainedOutside(s, MoneyAlphabet, BudgetMarkers, [2, 0, 0, 1]);
  }

  /** Conversely "money" selects the budget reply but does not mark the budget
      in the context. */
  lemma MoneyIsABudgetQuestion(s: string)
    requires s == "what about money?"
    ensures Classify(s) == Budget
    ensures !MentionsBudget(s)
  {
    MoneyLetters(s);
    MoneyMissesLists(s);
    assert s == "what about " + "money" + "?";
    ContainsInConcat("what about ", "money", "?", "money");
    assert BudgetWords[2] == "money";
  }
}
