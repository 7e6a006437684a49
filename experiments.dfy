/** The experiment tracker screen: experiment cards filtered by a search, a selected card whose
    buttons start, pause or stop the experiment, and the badge colours and class-name joining
    the cards use. */
module ExperimentTracking {
  import opened Lists
  import opened Text

  datatype Experiment = Experiment(id: string, name: string, description: string,
                                   dataset: string, status: string)

  datatype Action = Start | Pause | Stop

  /** The status an action sets: start runs, pause pauses, stop completes. */
  function ActionStatus(a: Action): (r: string)
    ensures r in ["Running", "Paused", "Completed"]
    ensures a == Start <==> r == "Running"
    ensures a == Pause <==> r == "Paused"
    ensures a == Stop <==> r == "Completed"
  {
    match a
    case Start => "Running"
    case Pause => "Paused"
    case Stop => "Completed"
  }

  /** `handleExperimentAction`: every experiment with this id gets the action's status; the
      others, and every other field, are kept. */
  function ApplyAction(exps: seq<Experiment>, id: string, a: Action): (r: seq<Experiment>)
    ensures |r| == |exps|
    ensures forall i :: 0 <= i < |r| ==> r[i] == exps[i].(status := r[i].status)
    ensures forall i :: 0 <= i < |r| ==> r[i].status == if exps[i].id == id then ActionStatus(a) else exps[i].status
    ensures forall i :: 0 <= i < |r| && exps[i].id != id ==> r[i] == exps[i]
  {
    seq(|exps|, i requires 0 <= i < |exps| =>
      if exps[i].id == id then exps[i].(status := ActionStatus(a)) else exps[i])
  }

  /** Pressing the same action twice has the effect of pressing it once. */
  lemma ApplyActionIdempotent(exps: seq<Experiment>, id: string, a: Action)
    ensures ApplyAction(ApplyAction(exps, id, a), id, a) == ApplyAction(exps, id, a)
  {
  }

  /** Only the last of two actions on the same experiment counts. */
  lemma LastActionWins(exps: seq<Experiment>, id: string, a: Action, b: Action)
    ensures ApplyAction(ApplyAction(exps, id, a), id, b) == ApplyAction(exps, id, b)
  {
  }

  /** `filteredExperiments`: a case-insensitive search of name, description and dataset. An
      empty query is contained in every text, so it keeps every experiment. */
  predicate MatchesSearch(e: Experiment, query: string)
  {
    Contains(ToLower(e.name), ToLower(query)) ||
    Contains(ToLower(e.description), ToLower(query)) ||
    Contains(ToLower(e.dataset), ToLower(query))
  }

  function FilteredExperiments(exps: seq<Experiment>, query: string): (r: seq<Experiment>)
    ensures forall e :: e in r <==> e in exps && MatchesSearch(e, query)
    ensures Subsequence(r, exps)
  {
    Filter(exps, (e: Experiment) => MatchesSearch(e, query))
  }

  lemma EmptySearchKeepsAll(exps: seq<Experiment>)
    ensures FilteredExperiments(exps, "") == exps
  {
    forall i | 0 <= i < |exps| ensures MatchesSearch(exps[i], "") {
      ContainsEmpty(ToLower(exps[i].name));
    }
    FilterKeepsAll(exps, (e: Experiment) => MatchesSearch(e, ""));
  }

  function Ids(exps: seq<Experiment>): (r: seq<string>)
    ensures |r| == |exps| && forall i :: 0 <= i < |exps| ==> r[i] == exps[i].id
  {
    seq(|exps|, i requires 0 <= i < |exps| => exps[i].id)
  }

  /** Filtering two lists that agree, position by position, on the id and on the predicate
      keeps the same ids. */
  lemma {:induction false} FilterSameIds(xs: seq<Experiment>, ys: seq<Experiment>, p: Experiment -> bool)
    requires |xs| == |ys|
    requires forall i :: 0 <= i < |xs| ==> xs[i].id == ys[i].id && p(xs[i]) == p(ys[i])
    ensures |Filter(xs, p)| == |Filter(ys, p)|
    ensures forall k :: 0 <= k < |Filter(xs, p)| ==> Filter(xs, p)[k].id == Filter(ys, p)[k].id
  {
    if xs != [] {
      FilterSameIds(xs[1..], ys[1..], p);
      FilterUnfold(xs, p);
      FilterUnfold(ys, p);
    }
  }

  /** The search does not look at the status, so an action never changes which cards are
      listed, nor their order. */
  lemma ActionKeepsListing(exps: seq<Experiment>, id: string, a: Action, query: string)
    ensures Ids(FilteredExperiments(ApplyAction(exps, id, a), query)) == Ids(FilteredExperiments(exps, query))
  {
    var after := ApplyAction(exps, id, a);
    var p := (e: Experiment) => MatchesSearch(e, query);
    forall i | 0 <= i < |exps| ensures after[i].id == exps[i].id && p(after[i]) == p(exps[i]) {
      assert after[i].name == exps[i].name && after[i].description == exps[i].description;
    }
    FilterSameIds(after, exps, p);
  }

  /** The buttons of a selected card: Start unless running, Pause only while running, Stop
      unless completed. */
  predicate Offered(status: string, a: Action)
  {
    match a
    case Start => status != "Running"
    case Pause => status == "Running"
    case Stop => status != "Completed"
  }

  /** An offered button always changes the status; exactly one of Start and Pause is offered;
      and some button is offered in every status. */
  lemma OfferedActionsChangeStatus(status: string, a: Action)
    ensures Offered(status, a) ==> ActionStatus(a) != status
    ensures Offered(status, Start) != Offered(status, Pause)
    ensures Offered(status, Start) || Offered(status, Stop)
  {
  }

  /** The buttons after each action: a started experiment offers Pause and Stop, a paused one
      Start and Stop, a completed one only Start. */
  lemma OfferedAfterAction(a: Action)
    ensures Offered(ActionStatus(a), Start) <==> a != Start
    ensures Offered(ActionStatus(a), Pause) <==> a == Start
    ensures Offered(ActionStatus(a), Stop) <==> a != Stop
  {
  }

  /** The Results button is shown for completed experiments only. */
  predicate ResultsOffered(status: string)
  {
    status == "Completed"
  }

  /** Results are downloadable exactly when the experiment can no longer be stopped. */
  lemma ResultsIffNotStoppable(status: string)
    ensures ResultsOffered(status) <==> !Offered(status, Stop)
  {
  }

  const GrayBadge: string := "bg-gray-100 text-gray-800 dark:bg-gray-800 dark:text-gray-300"

  /** The status badge's colour: blue while running, green when completed, yellow when paused,
      gray for anything else. */
  function StatusBadge(status: string): (r: string)
    ensures r == GrayBadge <==> status !in ["Running", "Completed", "Paused"]
  {
    if status == "Running" then "bg-blue-100 text-blue-800 dark:bg-blue-900 dark:text-blue-300"
    else if status == "Completed" then "bg-green-100 text-green-800 dark:bg-green-900 dark:text-green-300"
    else if status == "Paused" then "bg-yellow-100 text-yellow-800 dark:bg-yellow-900 dark:text-yellow-300"
    else GrayBadge
  }

  /** An argument of `cn`: a string, a boolean or `undefined`. */
  datatype ClassArg = Str(s: string) | Flag(b: bool) | Undefined

  /** `Boolean(arg)`: non-empty strings and `true`. */
  predicate Truthy(arg: ClassArg)
  {
    (arg.Str? && arg.s != "") || arg == Flag(true)
  }

  /** How `join` writes a kept argument (`true` is written "true"). */
  function ArgText(arg: ClassArg): string
  {
    match arg
    case Str(s) => s
    case Flag(b) => if b then "true" else "false"
    case Undefined => ""
  }

  function Texts(args: seq<ClassArg>): (r: seq<string>)
    ensures |r| == |args| && forall i :: 0 <= i < |args| ==> r[i] == ArgText(args[i])
  {
    seq(|args|, i requires 0 <= i < |args| => ArgText(args[i]))
  }

  /** `cn(...classes)`: the truthy arguments joined by single spaces. */
  function Cn(args: seq<ClassArg>): string
  {
    Join(Texts(Filter(args, Truthy)), " ")
  }

  /** Falsy arguments make no difference. */
  lemma CnIgnoresFalsy(args: seq<ClassArg>)
    ensures Cn(Filter(args, Truthy)) == Cn(args)
  {
    FilterIdempotent(args, Truthy);
  }

  /** When the kept arguments are single class names, splitting the result at spaces gives back
      exactly those names, in order. */
  lemma CnSplitsIntoClasses(args: seq<ClassArg>)
    requires forall i :: 0 <= i < |args| ==> ' ' !in ArgText(args[i])
    requires exists i :: 0 <= i < |args| && Truthy(args[i])
    ensures Split(Cn(args), ' ') == Texts(Filter(args, Truthy))
  {
    var kept := Filter(args, Truthy);
    var i :| 0 <= i < |args| && Truthy(args[i]);
    assert args[i] in kept;
    forall k | 0 <= k < |kept| ensures ' ' !in Texts(kept)[k] {
      assert kept[k] in args;
    }
    SplitJoinRoundTrip(Texts(kept), ' ');
  }

  /** The component state the tracker's handlers update. */
  class Tracker {
    var experiments: seq<Experiment>
    var searchQuery: string
    var selectedExperiment: Option<string>

    constructor (initial: seq<Experiment>)
      ensures experiments == initial && searchQuery == "" && selectedExperiment == None
    {
      experiments := initial;
      searchQuery := "";
      selectedExperiment := None;
    }

    function Listed(): seq<Experiment>
      reads this
    {
      FilteredExperiments(experiments, searchQuery)
    }

    method Search(query: string)
      modifies this`searchQuery
      ensures searchQuery == query
    {
      searchQuery := query;
    }

    /** A click on a card selects it, or clears the selection if it was selected. */
    method ClickCard(id: string)
      modifies this`selectedExperiment
      ensures selectedExperiment == ToggleChoice(old(selectedExperiment), id)
    {
      selectedExperiment := ToggleChoice(selectedExperiment, id);
    }

    /** A start, pause or stop button. */
    method Act(id: string, a: Action)
      modifies this`experiments
      ensures experiments == ApplyAction(old(experiments), id, a)
      ensures Ids(FilteredExperiments(experiments, searchQuery)) ==
              Ids(FilteredExperiments(old(experiments), searchQuery))
    {
      ActionKeepsListing(experiments, id, a, searchQuery);
      experiments := ApplyAction(experiments, id, a);
    }

    /** The Results button: it looks the experiment up for its message and changes nothing. */
    method DownloadSubject(id: string) returns (subject: Option<Experiment>)
      ensures subject.Some? <==> exists i :: 0 <= i < |experiments| && experiments[i].id == id
      ensures subject.Some? ==> subject.value in experiments && subject.value.id == id
    {
      subject := FindFirst(experiments, (e: Experiment) => e.id == id);
    }
  }
}
