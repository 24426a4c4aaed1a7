/** The add-task form with live duplicate suggestions.

    While the user types into the subject or the description field, a
    debounced lookup asks the backend for similar existing tasks and shows
    them under the field that was edited. A switch chooses between hybrid
    and semantic search. Picking a suggestion copies it into the form.

    The debounced lookup is one function shared by both fields, created anew
    whenever the search mode changes; it captures the mode of its creation,
    and that captured mode chooses both the backend operation and the field
    the similarity is read from. */
module AddTask {
  import opened Api

  /** The two text fields of the form that have suggestions. */
  datatype Field = Subject | Description

  /** One row of a search response as the backend sends it. Any field may
      be missing; semantic search fills `similarity`, hybrid search `score`. */
  datatype SearchRow = SearchRow(
    id: Option<int>,
    subject: Option<string>,
    description: Option<string>,
    similarity: Option<real>,
    score: Option<real>)

  /** A suggestion as the form shows it, with one uniform similarity. */
  datatype SimilarTask = SimilarTask(id: int, subject: string, description: string, similarity: real)

  /** A lookup in flight: the request issued, the field whose list its
      response will fill, and the mode that normalises the response. */
  datatype Lookup = Lookup(call: Call, field: Field, hybrid: bool)

  /** Queries shorter than this clear the field's suggestions instead. */
  const MIN_QUERY_LENGTH: nat := 3
  /** Number of suggestions asked for, in both modes. */
  const SUGGESTION_LIMIT: int := 5
  /** Weight of the semantic part in a hybrid search. */
  const HYBRID_SEMANTIC_WEIGHT: real := 0.5
  /** Minimum similarity of a semantic-search suggestion. */
  const SIMILARITY_THRESHOLD: real := 0.7

  /** One backend row as a suggestion; missing values become 0 or "". */
  function Normalise(row: SearchRow, hybrid: bool): SimilarTask {
    SimilarTask(
      row.id.GetOr(0),
      row.subject.GetOr(""),
      row.description.GetOr(""),
      if hybrid then row.score.GetOr(0.0) else row.similarity.GetOr(0.0))
  }

  /** The response rows as suggestions, in the order the backend sent them. */
  function ProcessSearchResults(data: seq<SearchRow>, hybrid: bool): (r: seq<SimilarTask>)
    ensures |r| == |data|
    ensures forall i :: 0 <= i < |data| ==>
      r[i].id == data[i].id.GetOr(0) &&
      r[i].subject == data[i].subject.GetOr("") &&
      r[i].description == data[i].description.GetOr("") &&
      r[i].similarity == (if hybrid then data[i].score.GetOr(0.0) else data[i].similarity.GetOr(0.0))
  {
    if data == [] then [] else [Normalise(data[0], hybrid)] + ProcessSearchResults(data[1..], hybrid)
  }

  /** Normalising a response in two pieces gives the two results one after
      the other: each row is normalised on its own, in place. */
  lemma ProcessSearchResultsAppend(a: seq<SearchRow>, b: seq<SearchRow>, hybrid: bool)
    ensures ProcessSearchResults(a + b, hybrid) == ProcessSearchResults(a, hybrid) + ProcessSearchResults(b, hybrid)
  {
  }

  /** What the debounced lookup does for `query` typed into `field` in a
      given mode: nothing reaches the backend below the minimum length;
      otherwise one search call, of the kind the mode selects. */
  function Issue(query: string, field: Field, hybrid: bool): (r: Option<Lookup>)
    ensures r.None? <==> |query| < MIN_QUERY_LENGTH
    ensures r.Some? ==> r.value.field == field && r.value.hybrid == hybrid
    ensures r.Some? ==> (r.value.call.HybridSearch? <==> hybrid)
    ensures r.Some? && hybrid ==> r.value.call == HybridSearch(query, 5, 0.5)
    ensures r.Some? && !hybrid ==> r.value.call == SearchSimilarTasks(query, 0.7, 5)
  {
    if |query| < MIN_QUERY_LENGTH then None
    else if hybrid then Some(Lookup(HybridSearch(query, SUGGESTION_LIMIT, HYBRID_SEMANTIC_WEIGHT), field, hybrid))
    else Some(Lookup(SearchSimilarTasks(query, SIMILARITY_THRESHOLD, SUGGESTION_LIMIT), field, hybrid))
  }

  /** One instance of the debounced lookup. It keeps a single trailing call:
      scheduling replaces whatever was pending, whichever field it was for,
      and when the quiet period ends the latest call runs. */
  class DebouncedSearch {
    /** The search mode of the render that created this instance. */
    const hybrid: bool
    /** The call waiting for the quiet period to end, if any. */
    var pending: Option<(string, Field)>

    constructor (hybrid: bool)
      ensures this.hybrid == hybrid && pending == None
    {
      this.hybrid := hybrid;
      pending := None;
    }

    /** A keystroke: the latest text of `field` replaces the pending call. */
    method Schedule(query: string, field: Field)
      modifies this
      ensures pending == Some((query, field))
    {
      pending := Some((query, field));
    }

    /** The quiet period ends: the pending call, if any, runs with this
        instance's captured mode. A short query clears that field's list at
        once; a longer one issues the returned lookup, whose response comes
        later through `Form.Receive`. */
    method Fire(form: Form) returns (lookup: Option<Lookup>)
      requires form.Valid()
      modifies this, form
      ensures form.Valid()
      ensures pending == None
      ensures old(pending).None? ==> lookup == None
      ensures old(pending).Some? ==> lookup == Issue(old(pending).value.0, old(pending).value.1, hybrid)
      ensures var cleared := old(pending).Some? && |old(pending).value.0| < MIN_QUERY_LENGTH;
        form.subjectSuggestions ==
          (if cleared && old(pending).value.1 == Subject then [] else old(form.subjectSuggestions)) &&
        form.descriptionSuggestions ==
          (if cleared && old(pending).value.1 == Description then [] else old(form.descriptionSuggestions))
      ensures form.subject == old(form.subject) && form.description == old(form.description)
      ensures form.isHybridSearch == old(form.isHybridSearch) && form.loading == old(form.loading)
      ensures form.search == old(form.search)
    {
      lookup := None;
      if pending.Some? {
        var (query, field) := pending.value;
        pending := None;
        if |query| < MIN_QUERY_LENGTH {
          form.SetSuggestions(field, []);
        } else {
          lookup := Issue(query, field, hybrid);
        }
      }
    }
  }

  /** The form's state: its two text values, the suggestion list under each,
      the mode switch, the submit button's busy flag, and the debounced
      lookup memoised for the current mode. */
  class Form {
    var subject: string
    var description: string
    var subjectSuggestions: seq<SimilarTask>
    var descriptionSuggestions: seq<SimilarTask>
    var isHybridSearch: bool
    var loading: bool
    var search: DebouncedSearch

    /** The memoised lookup belongs to the current mode. */
    ghost predicate Valid()
      reads this
    {
      search.hybrid == isHybridSearch
    }

    /** An empty form in semantic mode. */
    constructor ()
      ensures Valid() && fresh(search) && search.pending == None
      ensures subject == "" && description == ""
      ensures subjectSuggestions == [] && descriptionSuggestions == []
      ensures !isHybridSearch && !loading
    {
      subject, description := "", "";
      subjectSuggestions, descriptionSuggestions := [], [];
      isHybridSearch, loading := false, false;
      search := new DebouncedSearch(false);
    }

    /** Replaces the list of one field and nothing else. */
    method SetSuggestions(field: Field, s: seq<SimilarTask>)
      requires Valid()
      modifies this
      ensures Valid()
      ensures subjectSuggestions == if field == Subject then s else old(subjectSuggestions)
      ensures descriptionSuggestions == if field == Description then s else old(descriptionSuggestions)
      ensures subject == old(subject) && description == old(description)
      ensures isHybridSearch == old(isHybridSearch) && loading == old(loading) && search == old(search)
    {
      if field == Subject {
        subjectSuggestions := s;
      } else {
        descriptionSuggestions := s;
      }
    }

    /** The user edits `field`: its value becomes `text` and the memoised
        lookup is scheduled with that text. */
    method OnFieldChange(field: Field, text: string)
      requires Valid()
      modifies this, search
      ensures Valid()
      ensures subject == if field == Subject then text else old(subject)
      ensures description == if field == Description then text else old(description)
      ensures search == old(search) && search.pending == Some((text, field))
      ensures search.hybrid == isHybridSearch
      ensures subjectSuggestions == old(subjectSuggestions)
      ensures descriptionSuggestions == old(descriptionSuggestions)
      ensures isHybridSearch == old(isHybridSearch) && loading == old(loading)
    {
      if field == Subject {
        subject := text;
      } else {
        description := text;
      }
      search.Schedule(text, field);
    }

    /** The response to `lookup` arrives. Success replaces the list of the
        lookup's field by the rows normalised in the lookup's own mode; a
        failure is swallowed and changes nothing. */
    method Receive(lookup: Lookup, response: Response<seq<SearchRow>>)
      requires Valid()
      modifies this
      ensures Valid()
      ensures response.Err? ==>
        subjectSuggestions == old(subjectSuggestions) && descriptionSuggestions == old(descriptionSuggestions)
      ensures response.Ok? ==>
        var shown := ProcessSearchResults(response.data, lookup.hybrid);
        subjectSuggestions == (if lookup.field == Subject then shown else old(subjectSuggestions)) &&
        descriptionSuggestions == (if lookup.field == Description then shown else old(descriptionSuggestions))
      ensures subject == old(subject) && description == old(description)
      ensures isHybridSearch == old(isHybridSearch) && loading == old(loading) && search == old(search)
    {
      if response.Ok? {
        SetSuggestions(lookup.field, ProcessSearchResults(response.data, lookup.hybrid));
      }
    }

    /** The user picks `task` from the list under `field`. A subject
        suggestion fills both fields and empties both lists; a description
        suggestion fills the description and empties only its list. */
    method SelectSuggestion(task: SimilarTask, field: Field)
      requires Valid()
      modifies this
      ensures Valid()
      ensures field == Subject ==>
        subject == task.subject && description == task.description &&
        subjectSuggestions == [] && descriptionSuggestions == []
      ensures field == Description ==>
        subject == old(subject) && description == task.description &&
        subjectSuggestions == old(subjectSuggestions) && descriptionSuggestions == []
      ensures isHybridSearch == old(isHybridSearch) && loading == old(loading) && search == old(search)
    {
      if field == Subject {
        subject, description := task.subject, task.description;
        subjectSuggestions, descriptionSuggestions := [], [];
      } else {
        description := task.description;
        descriptionSuggestions := [];
      }
    }

    /** The validated form is submitted: the add-task call carries the two
        field values. Success resets the form and empties both lists; a
        failure leaves the form as it was. The button is idle afterwards. */
    method OnFinish(response: Response<()>) returns (call: Call)
      requires Valid()
      modifies this
      ensures Valid()
      ensures call == AddTask(old(subject), old(description))
      ensures !loading
      ensures response.Ok? ==>
        subject == "" && description == "" && subjectSuggestions == [] && descriptionSuggestions == []
      ensures response.Err? ==>
        subject == old(subject) && description == old(description) &&
        subjectSuggestions == old(subjectSuggestions) && descriptionSuggestions == old(descriptionSuggestions)
      ensures isHybridSearch == old(isHybridSearch) && search == old(search)
    {
      loading := true;
      call := AddTask(subject, description);
      if response.Ok? {
        subject, description := "", "";
        subjectSuggestions, descriptionSuggestions := [], [];
      }
      loading := false;
    }

    /** The mode switch is set to `checked`: both lists are emptied, and a
        new debounced lookup is memoised when the mode actually changes. The
        previous instance is not cancelled: a call pending there still runs
        later, in the previous mode. */
    method ToggleMode(checked: bool)
      requires Valid()
      modifies this
      ensures Valid() && isHybridSearch == checked
      ensures subjectSuggestions == [] && descriptionSuggestions == []
      ensures subject == old(subject) && description == old(description) && loading == old(loading)
      ensures checked == old(isHybridSearch) ==> search == old(search)
      ensures checked != old(isHybridSearch) ==> fresh(search) && search.pending == None
    {
      if checked != isHybridSearch {
        search := new DebouncedSearch(checked);
      }
      isHybridSearch := checked;
      subjectSuggestions, descriptionSuggestions := [], [];
    }
  }

  /** Typing in the subject field and then, within the quiet period, in the
      description field: the one shared pending slot keeps only the
      description's text, so no subject lookup is ever issued. */
  method SharedSlotScenario() returns (lookup: Option<Lookup>)
    ensures lookup == Some(Lookup(SearchSimilarTasks("xyz", 0.7, 5), Description, false))
  {
    var form := new Form();
    form.OnFieldChange(Subject, "abc");
    form.OnFieldChange(Description, "xyz");
    lookup := form.search.Fire(form);
  }

  /** A subject lookup scheduled in semantic mode fires after the switch was
      turned to hybrid: it still calls semantic search and its rows are
      normalised from `similarity`, refilling the list the switch emptied. */
  method CapturedModeScenario(rows: seq<SearchRow>) returns (lookup: Option<Lookup>, shown: seq<SimilarTask>)
    ensures lookup == Some(Lookup(SearchSimilarTasks("abcd", 0.7, 5), Subject, false))
    ensures shown == ProcessSearchResults(rows, false)
  {
    var form := new Form();
    form.OnFieldChange(Subject, "abcd");
    var previous := form.search;
    form.ToggleMode(true);
    lookup := previous.Fire(form);
    form.Receive(lookup.value, Ok(rows));
    shown := form.subjectSuggestions;
  }

  /** A lookup for "abcd" is issued; the user then shortens the field to
      "ab", which clears its list; the late response for "abcd" refills it.
      Nothing ties a response to the field's current text. */
  method LateResponseScenario(row: SearchRow) returns (form: Form)
    ensures |form.subject| < MIN_QUERY_LENGTH && form.subjectSuggestions != []
    ensures form.subjectSuggestions == ProcessSearchResults([row], false)
  {
    form := new Form();
    form.OnFieldChange(Subject, "abcd");
    var first := form.search.Fire(form);
    form.OnFieldChange(Subject, "ab");
    var second := form.search.Fire(form);
    assert form.subjectSuggestions == [];
    form.Receive(first.value, Ok([row]));
  }
}
