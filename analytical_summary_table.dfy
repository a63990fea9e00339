/** The analytical summary table's own logic: the contaminant search that
    fills the suggestion list, the guard that disables the Add button, and
    the two ways a row is added (typing a name and pressing Add, or clicking
    a suggestion). */
module AnalyticalSummaryTable {
  import opened Common
  import opened Strings
  import opened FormTypes
  import opened ConsignmentDetails

  // ----- the search -----

  /** The test `contaminant => contaminant.toLowerCase().includes(value.toLowerCase())`. */
  function MatchesQuery(query: string): string -> bool {
    (c: string) => Includes(ToLower(c), ToLower(query))
  }

  /** The suggestion list `handleContaminantSearch(value)` stores: nothing
      for a blank query; otherwise the catalog entries that contain the
      query, both lower-cased. The containment test uses the query as typed,
      not trimmed, and does not look at the rows already in the table. */
  function Suggestions(catalog: seq<string>, query: string): (r: seq<string>)
    ensures |r| <= |catalog|
    ensures IsBlank(query) ==> r == []
    ensures !IsBlank(query) ==> forall c :: c in r <==> c in catalog && Includes(ToLower(c), ToLower(query))
  {
    if IsBlank(query) then [] else Filter(catalog, MatchesQuery(query))
  }

  /** Suggestions come in catalog order: searching a concatenated catalog
      lists the first part's matches before the second part's. */
  lemma SuggestionsKeepCatalogOrder(a: seq<string>, b: seq<string>, query: string)
    ensures Suggestions(a + b, query) == Suggestions(a, query) + Suggestions(b, query)
  {
    if !IsBlank(query) {
      FilterAppend(a, b, MatchesQuery(query));
    }
  }

  /** A query made of whitespace only clears the list, however long. */
  lemma WhitespaceQueryClears(catalog: seq<string>, query: string)
    requires forall i :: 0 <= i < |query| ==> IsJsWhitespace(query[i])
    ensures Suggestions(catalog, query) == []
  {
    BlankIffAllWhitespace(query);
  }

  // ----- the Add button -----

  /** Some row's contaminant equals `name` once both are lower-cased. */
  predicate Listed(name: string, rows: seq<AnalyticalRow>) {
    exists i :: 0 <= i < |rows| && ToLower(rows[i].contaminant) == ToLower(name)
  }

  /** `!newContaminant || analyticalRows.some(row => row.contaminant.toLowerCase() === newContaminant.toLowerCase())`. */
  predicate AddDisabled(newContaminant: string, rows: seq<AnalyticalRow>) {
    newContaminant == "" || Listed(newContaminant, rows)
  }

  /** No two rows name the same contaminant, ignoring case. */
  predicate NamesDistinct(rows: seq<AnalyticalRow>) {
    forall i, j :: 0 <= i < j < |rows| ==> ToLower(rows[i].contaminant) != ToLower(rows[j].contaminant)
  }

  /** For rows without a repeated name, and a non-empty name, the Add button
      is disabled exactly when adding the name would repeat one. */
  lemma AddDisabledIffRepeat(rows: seq<AnalyticalRow>, name: string)
    requires NamesDistinct(rows) && name != ""
    ensures AddDisabled(name, rows) <==> !NamesDistinct(AddRow(rows, name))
  {
    var r := AddRow(rows, name);
    assert forall i :: 0 <= i < |rows| ==> r[i] == rows[i] by {
      forall i | 0 <= i < |rows| ensures r[i] == rows[i] {
        assert r[i] == r[..|rows|][i];
      }
    }
    if AddDisabled(name, rows) {
      var i :| 0 <= i < |rows| && ToLower(rows[i].contaminant) == ToLower(name);
      assert ToLower(r[i].contaminant) == ToLower(r[|rows|].contaminant);
    } else {
      forall i, j | 0 <= i < j < |r| ensures ToLower(r[i].contaminant) != ToLower(r[j].contaminant) {
        if j < |rows| {
        } else {
          assert r[j].contaminant == name;
        }
      }
    }
  }

  /** The typed path keeps the names distinct: a name the button lets
      through never repeats one. */
  lemma TypedAddKeepsNamesDistinct(rows: seq<AnalyticalRow>, name: string)
    requires NamesDistinct(rows) && !AddDisabled(name, rows)
    ensures NamesDistinct(AddRow(rows, name))
  {
    AddDisabledIffRepeat(rows, name);
  }

  /** The suggestion path can repeat a name: a suggested contaminant that is
      already in the table is one the Add button would refuse, and clicking
      it adds it again. */
  lemma SuggestionCanRepeat(catalog: seq<string>, query: string, rows: seq<AnalyticalRow>, i: nat)
    requires i < |rows| && rows[i].contaminant in Suggestions(catalog, query)
    ensures AddDisabled(rows[i].contaminant, rows)
    ensures !NamesDistinct(AddRow(rows, rows[i].contaminant))
  {
    var r := AddRow(rows, rows[i].contaminant);
    assert r[i] == r[..|rows|][i];
    assert ToLower(r[i].contaminant) == ToLower(r[|rows|].contaminant);
  }

  /** The first two letters of a name, lower-cased. */
  function Initials(name: string): (char, char)
    requires |name| >= 2
  {
    (LowerChar(name[0]), LowerChar(name[1]))
  }

  /** The default contaminants already differ in their first two letters. */
  lemma DefaultInitialsDistinct()
    ensures forall i, j :: 0 <= i < j < |DefaultContaminants| ==>
      Initials(DefaultContaminants[i]) != Initials(DefaultContaminants[j])
  {
    var keys := seq(|DefaultContaminants|, i requires 0 <= i < |DefaultContaminants| => Initials(DefaultContaminants[i]));
    assert keys == [('a', 'r'), ('c', 'a'), ('c', 'o'), ('c', 'h'), ('m', 'e'), ('n', 'i'), ('z', 'i'), ('a', 's')];
    assert forall i, j :: 0 <= i < j < |keys| ==> keys[i] != keys[j];
  }

  /** The seeded rows name each default contaminant once. */
  lemma DefaultRowsNamesDistinct()
    ensures NamesDistinct(DefaultRows())
  {
    var rows := DefaultRows();
    DefaultInitialsDistinct();
    forall i, j | 0 <= i < j < |rows| ensures ToLower(rows[i].contaminant) != ToLower(rows[j].contaminant) {
      var x := DefaultContaminants[i];
      var y := DefaultContaminants[j];
      assert rows[i].contaminant == x && rows[j].contaminant == y;
    }
  }

  // ----- the component -----

  /** The table's search box and suggestion list, bound to the editor whose
      rows it shows. */
  class ContaminantPicker {
    const editor: ConsignmentEditor
    const availableContaminants: seq<string>
    var newContaminant: string
    var filteredContaminants: seq<string>

    /** The suggestion list always belongs to the text in the search box. */
    predicate Valid()
      reads this
    {
      filteredContaminants == Suggestions(availableContaminants, newContaminant)
    }

    /** The rows the table shows. */
    function Rows(): seq<AnalyticalRow>
      reads this, editor
    {
      editor.localState.analyticalRows
    }

    /** The Add button's `disabled` attribute. */
    predicate AddButtonDisabled()
      reads this, editor
    {
      AddDisabled(newContaminant, Rows())
    }

    constructor (editor: ConsignmentEditor, availableContaminants: seq<string>)
      ensures this.editor == editor && this.availableContaminants == availableContaminants
      ensures newContaminant == "" && filteredContaminants == []
      ensures Valid()
    {
      this.editor := editor;
      this.availableContaminants := availableContaminants;
      newContaminant := "";
      filteredContaminants := [];
    }

    /** `handleContaminantSearch(value)`: the search box keeps the raw text
        and the list is recomputed from it. */
    method HandleContaminantSearch(value: string)
      modifies this
      ensures newContaminant == value
      ensures filteredContaminants == Suggestions(availableContaminants, value)
      ensures Valid()
    {
      newContaminant := value;
      if Trim(value) == "" {
        filteredContaminants := [];
      } else {
        filteredContaminants := Filter(availableContaminants, MatchesQuery(value));
      }
    }

    /** Clicking a listed suggestion: add it as a row, then clear the search
        box and the list. No check for a repeated name. */
    method SelectSuggestion(contaminant: string)
      requires contaminant in filteredContaminants
      requires editor.index <= |editor.formDataRef.current.consignmentDetails|
      modifies this, editor, editor.formDataRef
      ensures Rows() == AddRow(old(Rows()), contaminant)
      ensures editor.localState == old(editor.localState).(analyticalRows := Rows())
      ensures editor.formDataRef.current == old(editor.formDataRef.current).(consignmentDetails :=
        StoreAt(old(editor.formDataRef.current.consignmentDetails), editor.index, editor.localState))
      ensures editor.Synced()
      ensures newContaminant == "" && filteredContaminants == []
      ensures Valid()
    {
      editor.AddAnalyticalRow(contaminant);
      newContaminant := "";
      filteredContaminants := [];
    }

    /** Pressing the enabled Add button adds the typed name. The search box
        keeps its text, so the button is disabled afterwards. */
    method ClickAdd()
      requires !AddButtonDisabled()
      requires editor.index <= |editor.formDataRef.current.consignmentDetails|
      requires Valid()
      modifies editor, editor.formDataRef
      ensures Rows() == AddRow(old(Rows()), newContaminant)
      ensures editor.localState == old(editor.localState).(analyticalRows := Rows())
      ensures editor.formDataRef.current == old(editor.formDataRef.current).(consignmentDetails :=
        StoreAt(old(editor.formDataRef.current.consignmentDetails), editor.index, editor.localState))
      ensures editor.Synced()
      ensures old(NamesDistinct(Rows())) ==> NamesDistinct(Rows())
      ensures AddButtonDisabled()
      ensures Valid()
    {
      ghost var before := Rows();
      editor.AddAnalyticalRow(newContaminant);
      if NamesDistinct(before) {
        TypedAddKeepsNamesDistinct(before, newContaminant);
      }
      assert Rows()[|before|].contaminant == newContaminant;
    }
  }
}
