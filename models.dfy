/** The model registry screen: a list of models filtered by a case-insensitive search and a
    status, sorted by one of three orders that a button cycles through, with delete and the
    card's selection toggle. */
module ModelsManagement {
  import opened Lists
  import opened Text
  import opened Sorting

  /** `updatedAt` is the date's time value (what `new Date(updatedAt).getTime()` gives). */
  datatype Model = Model(id: string, name: string, description: string, status: string,
                         updatedAt: int, accuracy: real, size: string, tags: seq<string>)

  datatype SortOrder = ByName | ByDate | ByAccuracy

  /** The five statuses the status filter offers. */
  const Statuses: seq<string> := ["Deployed", "Training", "Ready", "Testing", "Archived"]

  /** `text.toLowerCase().includes(query.toLowerCase())`. */
  predicate Mentions(text: string, query: string)
  {
    Contains(ToLower(text), ToLower(query))
  }

  predicate MatchesSearch(m: Model, query: string)
  {
    query == "" || Mentions(m.name, query) || Mentions(m.description, query) ||
    exists t | t in m.tags :: Mentions(t, query)
  }

  predicate MatchesStatus(m: Model, filterStatus: Option<string>)
  {
    filterStatus == None || filterStatus == Some(m.status)
  }

  /** The sort key of a model under each order. */
  function SortKey(order: SortOrder, m: Model): Key
  {
    match order
    case ByName => Text(m.name)
    case ByDate => Num(m.updatedAt as real)
    case ByAccuracy => Num(m.accuracy)
  }

  /** Names sort ascending, dates (newest first) and accuracies (best first) descending. */
  predicate Descending(order: SortOrder) { !order.ByName? }

  predicate Matches(m: Model, query: string, filterStatus: Option<string>)
  {
    MatchesSearch(m, query) && MatchesStatus(m, filterStatus)
  }

  /** Sorting by `SortKey` puts names in ascending order, dates and accuracies in descending. */
  lemma SortedMeansOrdered(r: seq<Model>, order: SortOrder)
    requires SortedBy(r, (m: Model) => SortKey(order, m), Descending(order))
    ensures order == ByName ==> forall i, j :: 0 <= i < j < |r| ==> LexLe(r[i].name, r[j].name)
    ensures order == ByDate ==> forall i, j :: 0 <= i < j < |r| ==> r[i].updatedAt >= r[j].updatedAt
    ensures order == ByAccuracy ==> forall i, j :: 0 <= i < j < |r| ==> r[i].accuracy >= r[j].accuracy
  {
    forall i, j | 0 <= i < j < |r|
      ensures InOrder(SortKey(order, r[i]), SortKey(order, r[j]), Descending(order))
    {
    }
  }

  /** `filteredModels`: the models that match the search and the status filter, each as often as
      in `models`, ordered by name ascending, date descending or accuracy descending. */
  function FilteredModels(models: seq<Model>, query: string, filterStatus: Option<string>,
                          order: SortOrder): (r: seq<Model>)
    ensures forall m :: multiset(r)[m] == (if Matches(m, query, filterStatus) then multiset(models)[m] else 0)
    ensures forall m :: m in r <==> m in models && Matches(m, query, filterStatus)
    ensures order == ByName ==> forall i, j :: 0 <= i < j < |r| ==> LexLe(r[i].name, r[j].name)
    ensures order == ByDate ==> forall i, j :: 0 <= i < j < |r| ==> r[i].updatedAt >= r[j].updatedAt
    ensures order == ByAccuracy ==> forall i, j :: 0 <= i < j < |r| ==> r[i].accuracy >= r[j].accuracy
  {
    var kept := Filter(models, (m: Model) => Matches(m, query, filterStatus));
    var r := SortByKey(kept, (m: Model) => SortKey(order, m), Descending(order));
    SortedMeansOrdered(r, order);
    assert forall m :: m in r <==> m in multiset(kept);
    r
  }

  /** With an empty search and no status filter every model is listed. */
  lemma EmptyFilterListsAll(models: seq<Model>, order: SortOrder)
    ensures multiset(FilteredModels(models, "", None, order)) == multiset(models)
  {
    var r := FilteredModels(models, "", None, order);
    assert forall m :: multiset(r)[m] == multiset(models)[m];
  }

  /** The sort button: date, then name, then accuracy, then date again. */
  function NextSortOrder(order: SortOrder): (r: SortOrder)
    ensures r != order
    ensures order == ByDate ==> r == ByName
    ensures order == ByName ==> r == ByAccuracy
    ensures order == ByAccuracy ==> r == ByDate
  {
    if order == ByDate then ByName
    else if order == ByName then ByAccuracy
    else ByDate
  }

  /** Three presses of the sort button restore the order and two do not, so every order is reached. */
  lemma SortCycle(order: SortOrder)
    ensures NextSortOrder(NextSortOrder(NextSortOrder(order))) == order
    ensures NextSortOrder(NextSortOrder(order)) != order
  {
  }

  /** `models.find((m: Model) => m.id === id)`: the model the toast of a card action names. */
  function FindModel(models: seq<Model>, id: string): (r: Option<Model>)
    ensures r.Some? <==> exists i :: 0 <= i < |models| && models[i].id == id
    ensures r.Some? ==> r.value in models && r.value.id == id
  {
    FindFirst(models, (m: Model) => m.id == id)
  }

  /** The deploy button of an expanded card: absent for archived models and models in
      training, labelled "Redeploy" for a deployed model and "Deploy" otherwise. */
  function DeployButton(status: string): (r: Option<string>)
    ensures r.Some? <==> status != "Archived" && status != "Training"
    ensures r == Some("Redeploy") <==> status == "Deployed"
  {
    if status == "Archived" || status == "Training" then None
    else if status == "Deployed" then Some("Redeploy")
    else Some("Deploy")
  }

  const GrayBadge: string := "bg-gray-100 text-gray-800 dark:bg-gray-800 dark:text-gray-300"

  /** The status badge's classes: one colour per known status; archived models and unknown
      statuses get the gray badge. */
  function StatusColor(status: string): (r: string)
    ensures r == GrayBadge <==> status == "Archived" || status !in Statuses
  {
    match status
    case "Deployed" => "bg-green-100 text-green-800 dark:bg-green-900 dark:text-green-300"
    case "Training" => "bg-blue-100 text-blue-800 dark:bg-blue-900 dark:text-blue-300"
    case "Ready" => "bg-purple-100 text-purple-800 dark:bg-purple-900 dark:text-purple-300"
    case "Testing" => "bg-yellow-100 text-yellow-800 dark:bg-yellow-900 dark:text-yellow-300"
    case "Archived" => GrayBadge
    case _ => GrayBadge
  }

  /** The card actions that only announce themselves (deploy, new version, download, share,
      configure). */
  datatype CardAction = Deploy | NewVersion | Download | Share | Configure

  /** The component state of the registry that its handlers update. */
  class Registry {
    var models: seq<Model>
    var searchQuery: string
    var filterStatus: Option<string>
    var sortOrder: SortOrder
    var selectedModel: Option<string>
    var expandedModel: Option<string>
    var isTransitioning: bool

    constructor (initial: seq<Model>)
      ensures models == initial && searchQuery == "" && filterStatus == None && sortOrder == ByDate
      ensures selectedModel == None && expandedModel == None && !isTransitioning
    {
      models := initial;
      searchQuery := "";
      filterStatus := None;
      sortOrder := ByDate;
      selectedModel := None;
      expandedModel := None;
      isTransitioning := false;
    }

    /** The cards on screen. */
    function Listed(): seq<Model>
      reads this
    {
      FilteredModels(models, searchQuery, filterStatus, sortOrder)
    }

    method Search(query: string)
      modifies this`searchQuery
      ensures searchQuery == query
    {
      searchQuery := query;
    }

    /** The status menu: a status, or `None` for "All". */
    method SetStatusFilter(status: Option<string>)
      modifies this`filterStatus
      ensures filterStatus == status
    {
      filterStatus := status;
    }

    method CycleSort()
      modifies this`sortOrder
      ensures sortOrder == NextSortOrder(old(sortOrder))
    {
      sortOrder := NextSortOrder(sortOrder);
    }

    /** Deletes every model with this id; the selection and the expanded card are cleared only
        when they are this model. */
    method Delete(id: string)
      modifies this`models, this`selectedModel, this`expandedModel
      ensures models == Filter(old(models), (m: Model) => m.id != id)
      ensures forall m :: m in models <==> m in old(models) && m.id != id
      ensures Subsequence(models, old(models))
      ensures selectedModel == if old(selectedModel) == Some(id) then None else old(selectedModel)
      ensures expandedModel == if old(expandedModel) == Some(id) then None else old(expandedModel)
    {
      models := Filter(models, (m: Model) => m.id != id);
      if selectedModel == Some(id) {
        selectedModel := None;
      }
      if expandedModel == Some(id) {
        expandedModel := None;
      }
    }

    /** A click on a card's header toggles its selection, except while a card is expanding or
        collapsing. */
    method ClickHeader(id: string)
      modifies this`selectedModel
      ensures isTransitioning ==> selectedModel == old(selectedModel)
      ensures !isTransitioning ==> selectedModel == ToggleChoice(old(selectedModel), id)
    {
      if !isTransitioning {
        selectedModel := ToggleChoice(selectedModel, id);
      }
    }

    /** A card action: it looks the model up for its message and changes nothing. */
    method CardActionSubject(action: CardAction, id: string) returns (subject: Option<Model>)
      ensures subject.Some? <==> exists i :: 0 <= i < |models| && models[i].id == id
      ensures subject.Some? ==> subject.value in models && subject.value.id == id
    {
      subject := FindModel(models, id);
    }
  }
}
