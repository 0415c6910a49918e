/** The response classifier of the mock assistant: an ordered chain of keyword
    tests over the lower-cased message picks one category, and the category
    fixes the reply's template and its feature tags. */
module Classifier {
  import opened Wrappers
  import opened Text
  import opened TripContext

  /** The branches of the chain, in the order they are tried. */
  datatype Category = Weather | Culture | Budget | Language | Planning | Overview | Help | General

  /** What the assistant answers: a text and the feature tags shown beside it. */
  datatype Reply = Reply(text: string, features: seq<string>)

  const WeatherWords: seq<string> := ["weather", "rain", "sunny", "temperature"]
  const CultureWords: seq<string> := ["culture", "custom", "etiquette", "tip"]
  const BudgetWords: seq<string> := ["budget", "cheap", "money", "cost"]
  const LanguageWords: seq<string> := ["language", "translate", "speak", "communication"]
  const PlanningWords: seq<string> := ["plan", "itinerary", "schedule", "trip"]
  const HelpWords: seq<string> := ["help", "what can you do"]

  /** The `if / else if` chain over the lower-cased message; the destination
      test uses the destination found in this same message. */
  function Classify(lower: string): Category {
    if ContainsAny(lower, WeatherWords) then Weather
    else if ContainsAny(lower, CultureWords) then Culture
    else if ContainsAny(lower, BudgetWords) then Budget
    else if ContainsAny(lower, LanguageWords) then Language
    else if ContainsAny(lower, PlanningWords) then Planning
    else if FindDestination(lower).Some? then Overview
    else if ContainsAny(lower, HelpWords) then Help
    else General
  }

  /** The feature tags of each branch. */
  function FeaturesOf(c: Category): seq<string> {
    match c
    case Weather => ["weather", "activities"]
    case Culture => ["culture", "etiquette"]
    case Budget => ["budget", "planning"]
    case Language => ["language", "culture"]
    case Planning => ["planning", "itinerary"]
    case Overview => ["destination", "planning", "comprehensive"]
    case Help => ["comprehensive"]
    case General => ["general"]
  }

  /** The five branches selected by keywords alone. */
  predicate Keyworded(c: Category) {
    c.Weather? || c.Culture? || c.Budget? || c.Language? || c.Planning?
  }

  /** The template of a keyword branch: a lead, the optional mention of the
      destination (introduced by " for " or " in "), and the rest of the text. */
  datatype Frame = Frame(lead: string, connective: string, rest: string)

  const WeatherLead: string := "Great! I can help with weather-based planning"
  const WeatherRest: string :=
    ". I'll check the forecast and suggest "
    + "activities that match the conditions. "
    + "For example, if it's raining, I'll "
    + "recommend amazing indoor experiences "
    + "like museums, markets, or cozy cafes. "
    + "Would you like me to check the weather "
    + "forecast for specific dates?"
  const CultureLead: string :=
    "Absolutely! Cultural context is so "
    + "important for great travel experiences"
  const CultureRest: string :=
    ". I can help you understand local "
    + "customs, appropriate tipping, dress "
    + "codes, and social etiquette. I'll also "
    + "explain why certain behaviors might get "
    + "odd looks and how to blend in with "
    + "locals. What specific cultural "
    + "questions do you have?"
  const BudgetLead: string := "Perfect! I specialize in budget optimization"
  const BudgetRest: string :=
    ". I can find the cheapest flights, "
    + "budget accommodations, free activities, "
    + "and help you stretch every dollar. I'll "
    + "create a complete breakdown showing how "
    + "to maximize your experience while "
    + "minimizing costs. What's your target "
    + "budget range?"
  const LanguageLead: string :=
    "Language barriers can be tricky! I can "
    + "help with more than just translation"
  const LanguageRest: string :=
    " - I'll provide context-specific "
    + "phrases, help with pronunciation, and "
    + "explain cultural nuances in "
    + "communication. I'm especially good with "
    + "restaurant orders, directions, and "
    + "emergency situations. What language "
    + "help do you need?"
  const PlanningLead: string :=
    "I love trip planning! I can create "
    + "dynamic itineraries"
  const PlanningRest: string :=
    " that adapt in real-time to weather, "
    + "your energy levels, and unexpected "
    + "discoveries. I'll optimize your route, "
    + "suggest hidden gems, and help you "
    + "balance must-sees with spontaneous "
    + "exploration. When are you planning to "
    + "travel?"

  function FrameOf(c: Category): Frame
    requires Keyworded(c)
  {
    match c
    case Weather => Frame(WeatherLead, " for ", WeatherRest)
    case Culture => Frame(CultureLead, " in ", CultureRest)
    case Budget => Frame(BudgetLead, " for ", BudgetRest)
    case Language => Frame(LanguageLead, " for ", LanguageRest)
    case Planning => Frame(PlanningLead, " for ", PlanningRest)
  }

  /** `${found ? ` for ${found}` : ''}`: the mention, or nothing when no
      (non-empty) destination was found. */
  function Mention(connective: string, found: Option<string>): string {
    if found.Some? && found.value != [] then connective + found.value else ""
  }

  /** One capability of the help text. */
  datatype Capability = Capability(icon: string, title: string, detail: string)

  const Capabilities: seq<Capability> := [
    Capability("\U{1F324}\U{FE0F}", "Weather-Activity Matching", "I'll check forecasts and suggest perfect activities for any weather"),
    Capability("\U{1F30D}", "Cultural Context", "Local customs, etiquette, and insider cultural tips"),
    Capability("\U{1F4B0}", "Budget Optimization", "Find the cheapest flights, accommodation, and maximize your money"),
    Capability("\U{1F5E3}\U{FE0F}", "Language Support", "Context-aware translation and travel-specific phrases"),
    Capability("\U{1F4C5}", "Dynamic Planning", "Smart itineraries that adapt to real conditions"),
    Capability("\U{1F504}", "Real-time Adjustments", "I'll help when plans go sideways")]

  /** One line of the help text per capability, each ending in a newline. */
  function Bullets(cs: seq<Capability>): string {
    if cs == [] then ""
    else cs[0].icon + " **" + cs[0].title + "**: " + cs[0].detail + "\n" + Bullets(cs[1..])
  }

  const HelpIntro: string :=
    "I'm your comprehensive travel AI "
    + "assistant! Here's how I can help:\n\n"
  const HelpOutro: string :=
    "\nJust tell me about your travel plans "
    + "or ask any travel question!"

  function HelpText(): string {
    HelpIntro + Bullets(Capabilities) + HelpOutro
  }

  const GeneralText: string :=
    "I'd love to help you with that! As your "
    + "AI travel assistant, I can provide "
    + "insights on weather planning, cultural "
    + "guidance, budget optimization, language "
    + "help, and create adaptive itineraries. "
    + "Could you tell me more about what "
    + "you're planning or what specific travel "
    + "challenge you're facing?"

  const AmazingChoice: string := " is an amazing choice!"
  const OverviewMiddle: string :=
    " I can help you with everything from "
    + "weather-appropriate activities and "
    + "cultural insights to budget "
    + "optimization and language assistance. I "
    + "know the best local secrets, seasonal "
    + "considerations, and insider tips. What "
    + "aspect of your "
  const OverviewTail: string := " trip would you like to start with?"

  /** The destination overview for `d`, opening with `d` capitalised. */
  function OverviewText(d: string): string {
    Capitalize(d) + AmazingChoice + OverviewMiddle + d + OverviewTail
  }

  /** The text of branch `c` given the destination found this turn. The
      overview branch is only taken when a destination was found. */
  function Template(c: Category, found: Option<string>): string {
    match c
    case Overview => OverviewText(if found.Some? then found.value else "")
    case Help => HelpText()
    case General => GeneralText
    case _ => Fill(FrameOf(c), found)
  }

  /** A keyword template with the destination mention filled in. */
  function Fill(f: Frame, found: Option<string>): string {
    f.lead + Mention(f.connective, found) + f.rest
  }

  /** The reply to a lower-cased message. */
  function GenerateReply(lower: string): Reply {
    var c := Classify(lower);
    Reply(Template(c, FindDestination(lower)), FeaturesOf(c))
  }
}

module ClassifierProps {
  import opened Wrappers
  import opened Text
  import opened TripContext
  import opened Classifier

  /** The position of each branch in the priority order. */
  function Rank(c: Category): nat {
    match c
    case Weather => 0
    case Culture => 1
    case Budget => 2
    case Language => 3
    case Planning => 4
    case Overview => 5
    case Help => 6
    case General => 7
  }

  /** The test of each branch taken on its own; the fallback always applies. */
  predicate Fires(c: Category, lower: string) {
    match c
    case Weather => ContainsAny(lower, WeatherWords)
    case Culture => ContainsAny(lower, CultureWords)
    case Budget => ContainsAny(lower, BudgetWords)
    case Language => ContainsAny(lower, LanguageWords)
    case Planning => ContainsAny(lower, PlanningWords)
    case Overview => FindDestination(lower).Some?
    case Help => ContainsAny(lower, HelpWords)
    case General => true
  }

  /** First match wins: the chain picks `c` exactly when the test of `c`
      holds and no test of higher priority does. */
  lemma ClassifyIsFirstMatch(lower: string, c: Category)
    ensures Classify(lower) == c <==>
            Fires(c, lower) && forall d :: Rank(d) < Rank(c) ==> !Fires(d, lower)
  {
    var chosen := Classify(lower);
    assert Fires(chosen, lower);
    forall d | Rank(d) < Rank(chosen) ensures !Fires(d, lower) {
      match d
      case Weather =>
      case Culture =>
      case Budget =>
      case Language =>
      case Planning =>
      case Overview =>
      case Help =>
    }
    if c != chosen && Fires(c, lower) {
      assert Rank(chosen) < Rank(c) by {
        match c
        case Weather =>
        case Culture =>
        case Budget =>
        case Language =>
        case Planning =>
        case Overview =>
        case Help =>
        case General =>
      }
    }
  }

  /** The chain as data: each rule pairs a test with the branch it selects,
      in priority order; a message no rule accepts gets the fallback. */
  datatype Guard = AnyOf(words: seq<string>) | DestinationFound
  datatype Rule = Rule(guard: Guard, category: Category)

  const Rules: seq<Rule> := [
    Rule(AnyOf(WeatherWords), Weather),
    Rule(AnyOf(CultureWords), Culture),
    Rule(AnyOf(BudgetWords), Budget),
    Rule(AnyOf(LanguageWords), Language),
    Rule(AnyOf(PlanningWords), Planning),
    Rule(DestinationFound, Overview),
    Rule(AnyOf(HelpWords), Help)]

  predicate Holds(g: Guard, lower: string) {
    match g
    case AnyOf(words) => ContainsAny(lower, words)
    case DestinationFound => FindDestination(lower).Some?
  }

  /** The category of the first rule whose test holds, or the fallback. */
  function FirstRule(rules: seq<Rule>, lower: string): Category {
    if rules == [] then General
    else if Holds(rules[0].guard, lower) then rules[0].category
    else FirstRule(rules[1..], lower)
  }

  /** The rule table selects the category of its earliest rule that holds. */
  lemma {:induction false} FirstRuleIsEarliest(rules: seq<Rule>, lower: string, k: int)
    requires 0 <= k < |rules| && Holds(rules[k].guard, lower)
    requires forall j :: 0 <= j < k ==> !Holds(rules[j].guard, lower)
    ensures FirstRule(rules, lower) == rules[k].category
  {
    if k > 0 {
      assert !Holds(rules[0].guard, lower);
      FirstRuleIsEarliest(rules[1..], lower, k - 1);
    }
  }

  /** When no rule holds, the table gives the fallback. */
  lemma {:induction false} FirstRuleFallsBack(rules: seq<Rule>, lower: string)
    requires forall j :: 0 <= j < |rules| ==> !Holds(rules[j].guard, lower)
    ensures FirstRule(rules, lower) == General
  {
    if rules != [] {
      assert !Holds(rules[0].guard, lower);
      FirstRuleFallsBack(rules[1..], lower);
    }
  }

  /** The `if / else if` chain and the rule table agree on every message. */
  lemma ClassifyAgreesWithRules(lower: string)
    ensures Classify(lower) == FirstRule(Rules, lower)
  {
    var k := Rank(Classify(lower));
    ClassifyIsFirstMatch(lower, Classify(lower));
    if k < |Rules| {
      forall j | 0 <= j < k ensures !Holds(Rules[j].guard, lower) {
        var d := [Weather, Culture, Budget, Language, Planning, Overview, Help][j];
        assert Rank(d) == j;
      }
      FirstRuleIsEarliest(Rules, lower, k);
    } else {
      forall j | 0 <= j < |Rules| ensures !Holds(Rules[j].guard, lower) {
        var d := [Weather, Culture, Budget, Language, Planning, Overview, Help][j];
        assert Rank(d) == j;
      }
      FirstRuleFallsBack(Rules, lower);
    }
  }

  /** The reply's features are those of the branch of highest priority whose
      test holds; a message with a weather word is always a weather reply,
      whatever else it mentions. */
  lemma WeatherWordsWin(lower: string)
    requires ContainsAny(lower, WeatherWords)
    ensures GenerateReply(lower).features == ["weather", "activities"]
  {
  }

  /** The overview is chosen exactly when no keyword branch applies and a
      destination was found in this message. */
  lemma OverviewExactly(lower: string)
    ensures Classify(lower) == Overview <==>
            !ContainsAny(lower, WeatherWords) && !ContainsAny(lower, CultureWords)
            && !ContainsAny(lower, BudgetWords) && !ContainsAny(lower, LanguageWords)
            && !ContainsAny(lower, PlanningWords) && FindDestination(lower).Some?
  {
  }

  /** The overview opens with the destination, first letter upper-cased,
      followed by " is an amazing choice!". */
  lemma OverviewOpening(d: string)
    ensures Capitalize(d) + AmazingChoice <= OverviewText(d)
  {
    assert OverviewText(d) == Capitalize(d) + AmazingChoice + OverviewMiddle + d + OverviewTail;
  }

  /** An overview reply is the overview of the destination found in the message. */
  lemma OverviewReply(lower: string)
    requires Classify(lower) == Overview
    ensures FindDestination(lower).Some?
    ensures GenerateReply(lower).text == OverviewText(FindDestination(lower).value)
    ensures GenerateReply(lower).features == ["destination", "planning", "comprehensive"]
  {
    assert GenerateReply(lower) == Reply(Template(Overview, FindDestination(lower)), FeaturesOf(Overview));
  }

  /** The fallback is chosen exactly when no other test holds: no keyword of
      any branch and no destination. */
  lemma GeneralExactly(lower: string)
    ensures Classify(lower) == General <==>
            !ContainsAny(lower, WeatherWords) && !ContainsAny(lower, CultureWords)
            && !ContainsAny(lower, BudgetWords) && !ContainsAny(lower, LanguageWords)
            && !ContainsAny(lower, PlanningWords) && FindDestination(lower).None?
            && !ContainsAny(lower, HelpWords)
  {
  }

  /** In a keyword branch the destination found this turn is spliced into the
      fixed text at a fixed place, right after the lead; when none was found
      the text is the fixed text with nothing spliced in. */
  lemma MentionIsSpliced(f: Frame, found: Option<string>)
    ensures var plain := Fill(f, None);
            |f.lead| <= |plain| &&
            Fill(f, found) ==
              if found.Some? && found.value != [] then plain[..|f.lead|] + f.connective + found.value + plain[|f.lead|..]
              else plain
  {
    var plain := Fill(f, None);
    assert plain == f.lead + f.rest;
    assert plain[..|f.lead|] == f.lead;
    assert plain[|f.lead|..] == f.rest;
  }

  /** A keyword reply is the keyword template filled with the destination
      found in the message, not with the one stored in the context. */
  lemma KeywordReply(lower: string)
    requires Keyworded(Classify(lower))
    ensures GenerateReply(lower).text == Fill(FrameOf(Classify(lower)), FindDestination(lower))
  {
  }

  /** Every capability of the help text is named in it. */
  lemma {:induction false} BulletsNameEveryCapability(cs: seq<Capability>, i: int)
    requires 0 <= i < |cs|
    ensures Contains(Bullets(cs), cs[i].title)
  {
    var head := cs[0].icon + " **";
    var tail := "**: " + cs[0].detail + "\n" + Bullets(cs[1..]);
    assert Bullets(cs) == head + cs[0].title + tail;
    if i == 0 {
      assert cs[0].title <= cs[0].title;
      ContainsInConcat(head, cs[0].title, tail, cs[0].title);
    } else {
      BulletsNameEveryCapability(cs[1..], i - 1);
      var lead := head + cs[0].title + "**: " + cs[0].detail + "\n";
      assert Bullets(cs) == lead + Bullets(cs[1..]) + "";
      ContainsInConcat(lead, Bullets(cs[1..]), "", cs[i].title);
    }
  }

  /** The help reply names every capability. */
  lemma HelpNamesEveryCapability(lower: string, i: int)
    requires Classify(lower) == Help && 0 <= i < |Capabilities|
    ensures Contains(GenerateReply(lower).text, Capabilities[i].title)
  {
    BulletsNameEveryCapability(Capabilities, i);
    ContainsInConcat(HelpIntro, Bullets(Capabilities), HelpOutro, Capabilities[i].title);
  }
}
