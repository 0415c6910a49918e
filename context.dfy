/** The context extractor of the mock assistant: it scans the lower-cased
    message for a destination of a fixed gazetteer and for budget vocabulary,
    and merges what it found into a copy of the prior conversation context. */
module TripContext {
  import opened Wrappers
  import opened Text

  /** The trip the context may refer to; the source never sets it. */
  datatype TripRef = TripRef(id: nat)

  /** The conversation context record; the empty string means "not set". */
  datatype Context = Context(
    destination: string,
    dates: string,
    budget: string,
    preferences: seq<string>,
    currentTrip: Option<TripRef>)

  /** The context a session starts with. */
  function InitialContext(): Context {
    Context("", "", "", [], None)
  }

  /** The gazetteer, in the order it is searched. */
  const Destinations: seq<string> :=
    ["paris", "tokyo", "london", "new york", "bali", "rome", "barcelona",
     "thailand", "japan", "italy", "spain", "france", "uk", "usa"]

  /** The words that mark the budget as mentioned. */
  const BudgetMarkers: seq<string> := ["budget", "$", "cheap", "expensive"]

  /** The value the budget field takes when budget vocabulary is found. */
  const Mentioned: string := "mentioned"

  /** `names.find(n => s.includes(n))`: the first name, in list order, that
      occurs in `s`, or None when no name occurs in it. */
  function FirstContained(s: string, names: seq<string>): (r: Option<string>)
    ensures r.Some? ==> r.value in names && Contains(s, r.value)
    ensures r.None? <==> forall i :: 0 <= i < |names| ==> !Contains(s, names[i])
  {
    if names == [] then None
    else if Contains(s, names[0]) then Some(names[0])
    else FirstContained(s, names[1..])
  }

  /** First match wins: the name found is the one at the earliest index that
      occurs in `s`, whatever later names also occur. */
  lemma {:induction false} FirstContainedIsEarliest(s: string, names: seq<string>, k: int)
    requires 0 <= k < |names| && Contains(s, names[k])
    requires forall j :: 0 <= j < k ==> !Contains(s, names[j])
    ensures FirstContained(s, names) == Some(names[k])
  {
    if k > 0 {
      assert !Contains(s, names[0]);
      FirstContainedIsEarliest(s, names[1..], k - 1);
    }
  }

  /** Conversely, a name that was found sits at an index before which no name occurs. */
  lemma FirstContainedHasEarliestIndex(s: string, names: seq<string>)
    requires FirstContained(s, names).Some?
    ensures exists k :: 0 <= k < |names| && names[k] == FirstContained(s, names).value
                        && forall j :: 0 <= j < k ==> !Contains(s, names[j])
  {
    var k := EarliestIndex(s, names);
  }

  /** The index of the name `FirstContained` finds. */
  lemma {:induction false} EarliestIndex(s: string, names: seq<string>) returns (k: int)
    requires FirstContained(s, names).Some?
    ensures 0 <= k < |names| && names[k] == FirstContained(s, names).value
    ensures forall j :: 0 <= j < k ==> !Contains(s, names[j])
  {
    if Contains(s, names[0]) {
      k := 0;
    } else {
      var rest := EarliestIndex(s, names[1..]);
      k := rest + 1;
      forall j | 0 < j < k ensures !Contains(s, names[j]) {
        assert names[j] == names[1..][j - 1];
      }
    }
  }

  /** The destination mentioned in the lower-cased message, if any. */
  function FindDestination(lower: string): Option<string> {
    FirstContained(lower, Destinations)
  }

  /** The lower-cased message contains budget vocabulary. */
  predicate MentionsBudget(lower: string) {
    ContainsAny(lower, BudgetMarkers)
  }

  /** The context after a turn whose lower-cased message is `lower`: the prior
      record with destination and budget overwritten only where something was found. */
  function Merge(prior: Context, lower: string): Context {
    var found := FindDestination(lower);
    prior.(destination := if found.Some? then found.value else prior.destination,
           budget := if MentionsBudget(lower) then Mentioned else prior.budget)
  }

  /** The extraction step of a turn: copies the prior context, then overwrites
      the destination and the budget field by field. */
  method ExtractContext(lower: string, prior: Context) returns (updated: Context, found: Option<string>)
    ensures found == FindDestination(lower)
    ensures updated == Merge(prior, lower)
  {
    updated := prior;
    found := FirstContained(lower, Destinations);
    if found.Some? {
      updated := updated.(destination := found.value);
    }
    if ContainsAny(lower, BudgetMarkers) {
      updated := updated.(budget := Mentioned);
    }
  }

  /** Every name of the gazetteer is non-empty. */
  lemma DestinationsNonEmpty()
    ensures forall i :: 0 <= i < |Destinations| ==> Destinations[i] != []
  {
  }

  /** The merge is non-destructive: dates, preferences and the current trip are
      kept; the destination is replaced exactly when one is found and otherwise
      kept; the budget becomes "mentioned" exactly when budget vocabulary occurs
      and is otherwise kept. */
  lemma MergeIsNonDestructive(prior: Context, lower: string)
    ensures Merge(prior, lower).dates == prior.dates
    ensures Merge(prior, lower).preferences == prior.preferences
    ensures Merge(prior, lower).currentTrip == prior.currentTrip
    ensures FindDestination(lower).None? ==> Merge(prior, lower).destination == prior.destination
    ensures FindDestination(lower).Some? ==> Merge(prior, lower).destination == FindDestination(lower).value
    ensures Merge(prior, lower).budget == Mentioned <==> MentionsBudget(lower) || prior.budget == Mentioned
    ensures !MentionsBudget(lower) ==> Merge(prior, lower).budget == prior.budget
  {
  }

  /** A destination once set is never cleared by a later turn. */
  lemma MergeKeepsDestinationSet(prior: Context, lower: string)
    requires prior.destination != []
    ensures Merge(prior, lower).destination != []
  {
    DestinationsNonEmpty();
  }

  /** The stored destination is always empty or a gazetteer name, given that it was
      so before the turn. */
  lemma MergeStoresGazetteerNames(prior: Context, lower: string)
    requires prior.destination == [] || prior.destination in Destinations
    ensures Merge(prior, lower).destination == [] || Merge(prior, lower).destination in Destinations
  {
  }

  /** Substring matching: "i love parisian food" yields paris. */
  lemma ParisianMatchesParis()
    ensures FindDestination("i love parisian food") == Some("paris")
  {
    var s := "i love parisian food";
    assert s == "i love " + "paris" + "ian food";
    ContainsInConcat("i love ", "paris", "ian food", "paris");
    FirstContainedIsEarliest(s, Destinations, 0);
  }

  /** Gazetteer order decides: a message naming both France and Paris yields paris. */
  lemma ParisBeatsFrance(s: string)
    requires s == "france or paris?"
    ensures FindDestination(s) == Some("paris")
  {
    assert s == "france or " + "paris" + "?";
    ContainsInConcat("france or ", "paris", "?", "paris");
    FirstContainedIsEarliest(s, Destinations, 0);
  }

  /** A message naming Japan and Tokyo yields tokyo, which the gazetteer lists first. */
  lemma TokyoBeatsJapan(s: string)
    requires s == "japan, maybe tokyo"
    ensures FindDestination(s) == Some("tokyo")
  {
    assert s == "japan, maybe " + "tokyo" + "";
    ContainsInConcat("japan, maybe ", "tokyo", "", "tokyo");
    ContainedCharsOccur(s, "paris", 2);
    FirstContainedIsEarliest(s, Destinations, 1);
  }

  /** "$" and "expensive" mark the budget. */
  lemma DollarAndExpensiveMarkBudget(a: string, b: string)
    requires a == "is $200 enough?" && b == "too expensive"
    ensures MentionsBudget(a) && MentionsBudget(b)
  {
    assert a == "is " + "$" + "200 enough?";
    ContainsInConcat("is ", "$", "200 enough?", "$");
    assert b == "too " + "expensive" + "";
    ContainsInConcat("too ", "expensive", "", "expensive");
    assert BudgetMarkers[1] == "$" && BudgetMarkers[3] == "expensive";
  }

  /** "money" and "cost" do not mark the budget. */
  lemma MoneyAndCostDoNotMarkBudget(s: string)
    requires s == "how much money does it cost"
    ensures !MentionsBudget(s)
  {
    NoneContainedIfCharsMissing(s, BudgetMarkers, [0, 0, 3, 1]);
  }
}
