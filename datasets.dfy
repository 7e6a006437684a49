/** The dataset list screen: dataset cards filtered by a case-insensitive search, with a
    selected card and a download action that only announces itself. */
module DatasetList {
  import opened Lists
  import opened Text

  datatype Dataset = Dataset(id: string, name: string, description: string, samples: int,
                             tags: seq<string>)

  /** The lowercased name, description or some lowercased tag contains the lowercased query. */
  predicate MatchesSearch(d: Dataset, query: string)
  {
    Contains(ToLower(d.name), ToLower(query)) ||
    Contains(ToLower(d.description), ToLower(query)) ||
    exists t | t in d.tags :: Contains(ToLower(t), ToLower(query))
  }

  /** `filteredDatasets`. */
  function FilteredDatasets(datasets: seq<Dataset>, query: string): (r: seq<Dataset>)
    ensures forall d :: d in r <==> d in datasets && MatchesSearch(d, query)
    ensures forall d :: multiset(r)[d] == (if MatchesSearch(d, query) then multiset(datasets)[d] else 0)
    ensures Subsequence(r, datasets)
  {
    Filter(datasets, (d: Dataset) => MatchesSearch(d, query))
  }

  /** The empty query is contained in every name, so it lists every dataset in order. */
  lemma EmptySearchKeepsAll(datasets: seq<Dataset>)
    ensures FilteredDatasets(datasets, "") == datasets
  {
    forall i | 0 <= i < |datasets| ensures MatchesSearch(datasets[i], "") {
      ContainsEmpty(ToLower(datasets[i].name));
    }
    FilterKeepsAll(datasets, (d: Dataset) => MatchesSearch(d, ""));
  }

  /** A dataset whose name contains the query, in any letter case, is listed. */
  lemma NameMatchIsListed(datasets: seq<Dataset>, query: string, i: int)
    requires 0 <= i < |datasets|
    requires Contains(ToLower(datasets[i].name), ToLower(query))
    ensures datasets[i] in FilteredDatasets(datasets, query)
  {
  }

  /** Narrowing the query never lists more: a dataset that matches a query with text added
      on either side also matches the query itself. */
  lemma LongerQueryNarrows(d: Dataset, query: string, before: string, after: string)
    requires MatchesSearch(d, before + query + after)
    ensures MatchesSearch(d, query)
  {
    var longer := ToLower(before + query + after);
    var q := ToLower(query);
    assert longer == ToLower(before) + q + ToLower(after);
    assert OccursAt(longer, q, |before|);
    if Contains(ToLower(d.name), longer) {
      WindowInside(ToLower(d.name), longer, q, |before|);
    } else if Contains(ToLower(d.description), longer) {
      WindowInside(ToLower(d.description), longer, q, |before|);
    } else {
      var t :| t in d.tags && Contains(ToLower(t), longer);
      WindowInside(ToLower(t), longer, q, |before|);
    }
  }

  /** A string that contains `mid`, where `mid` contains `q` at `k`, contains `q`. */
  lemma WindowInside(s: string, mid: string, q: string, k: int)
    requires Contains(s, mid) && OccursAt(mid, q, k)
    ensures Contains(s, q)
  {
    var i :| OccursAt(s, mid, i);
    assert s[i..i + |mid|] == mid;
    forall j | 0 <= j < |q| ensures s[i + k + j] == q[j] {
      assert s[i + k + j] == s[i..i + |mid|][k + j] == mid[k + j];
      assert mid[k..k + |q|] == q;
    }
    assert s[i + k..i + k + |q|] == q;
    assert OccursAt(s, q, i + k);
  }

  /** The dataset screen's state. */
  class Browser {
    var datasets: seq<Dataset>
    var searchQuery: string
    var selectedDataset: Option<string>

    constructor (initial: seq<Dataset>)
      ensures datasets == initial && searchQuery == "" && selectedDataset == None
    {
      datasets := initial;
      searchQuery := "";
      selectedDataset := None;
    }

    function Listed(): seq<Dataset>
      reads this
    {
      FilteredDatasets(datasets, searchQuery)
    }

    method Search(query: string)
      modifies this`searchQuery
      ensures searchQuery == query
    {
      searchQuery := query;
    }

    /** A click on a card selects it, or clears the selection when it was selected. */
    method ClickCard(id: string)
      modifies this`selectedDataset
      ensures selectedDataset == ToggleChoice(old(selectedDataset), id)
    {
      selectedDataset := ToggleChoice(selectedDataset, id);
    }

    /** The download button looks the dataset up for its message and changes nothing. */
    method DownloadSubject(id: string) returns (subject: Option<Dataset>)
      ensures subject.Some? <==> exists i :: 0 <= i < |datasets| && datasets[i].id == id
      ensures subject.Some? ==> subject.value in datasets && subject.value.id == id
    {
      subject := FindFirst(datasets, (d: Dataset) => d.id == id);
    }
  }
}
