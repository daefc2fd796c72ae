/**
 * The skills step of onboarding: the uniqueness checks run before the step
 * is submitted, and the list edits made by dragging a card and by
 * confirming a deletion.
 */
module SkillsStep {
  import opened Wrappers
  import opened Text
  import opened JsValue

  /** An entry of the errors object: the message for `<list>.<index>.<field>`. */
  datatype FieldError = FieldError(list: string, index: nat, field: string, message: string)

  function ErrorPath(e: FieldError): (r: string)
    ensures StartsWith(r, e.list + ".")
  {
    var path := e.list + "." + NatToString(e.index) + "." + e.field;
    assert path[..|e.list + "."|] == e.list + ".";
    path
  }

  const SkillMessage: string := "Skill name must be unique"
  const LanguageMessage: string := "Language must be unique"
  const EmptyKeywordMessage: string := "Keyword cannot be empty"
  const DuplicateKeywordMessage: string := "Keyword must be unique"

  // ---------------------------------------------------------------------------
  // The first-wins uniqueness loop shared by the three checks
  // ---------------------------------------------------------------------------

  /** What a check reads from an entry: nothing (a falsy value), a blank value, or the name it compares. */
  datatype Token = Skipped | Blank | Name(name: string)

  /** Entry `i` carries a name that an earlier entry already carries. */
  predicate Repeats(tokens: seq<Token>, i: nat)
    requires i < |tokens|
  {
    tokens[i].Name? && tokens[i] in tokens[..i]
  }

  /** The message entry `i` gets: blank entries and repeated names are flagged, first occurrences pass. */
  function TokenError(tokens: seq<Token>, i: nat, repeated: string, blank: string): (r: Option<string>)
    requires i < |tokens|
    ensures r == None <==> tokens[i].Skipped? || (tokens[i].Name? && !Repeats(tokens, i))
  {
    if tokens[i].Blank? then Some(blank)
    else if Repeats(tokens, i) then Some(repeated)
    else None
  }

  /** The errors of the first `n` entries, in index order. */
  function TokenErrors(list: string, field: string, repeated: string, blank: string, tokens: seq<Token>, n: nat): (r: seq<FieldError>)
    requires n <= |tokens|
    ensures forall e :: e in r ==> e.list == list && e.field == field && e.index < n
  {
    if n == 0 then []
    else
      var earlier := TokenErrors(list, field, repeated, blank, tokens, n - 1);
      match TokenError(tokens, n - 1, repeated, blank)
      case Some(m) => earlier + [FieldError(list, n - 1, field, m)]
      case None => earlier
  }

  /** An entry is reported, at its own path, exactly when `TokenError` gives it a message. */
  lemma {:induction false} TokenErrorsFlag(list: string, field: string, repeated: string, blank: string,
                                           tokens: seq<Token>, n: nat, e: FieldError)
    requires n <= |tokens|
    ensures e in TokenErrors(list, field, repeated, blank, tokens, n) <==>
      e.list == list && e.field == field && e.index < n && TokenError(tokens, e.index, repeated, blank) == Some(e.message)
  {
    if n > 0 {
      TokenErrorsFlag(list, field, repeated, blank, tokens, n - 1, e);
    }
  }

  /** Every error index lies below `n`, and the indices strictly increase. */
  predicate IndicesBelow(es: seq<FieldError>, n: nat) {
    forall a, b :: 0 <= a < b < |es| ==> es[a].index < es[b].index < n
  }

  /** The errors come in strictly increasing index order, so each entry is reported at most once. */
  lemma {:induction false} TokenErrorsOrdered(list: string, field: string, repeated: string, blank: string,
                                              tokens: seq<Token>, n: nat)
    requires n <= |tokens|
    ensures IndicesBelow(TokenErrors(list, field, repeated, blank, tokens, n), n)
  {
    if n > 0 {
      TokenErrorsOrdered(list, field, repeated, blank, tokens, n - 1);
      var prev := TokenErrors(list, field, repeated, blank, tokens, n - 1);
      assert IndicesBelow(prev, n - 1);
      forall a | 0 <= a < |prev| ensures prev[a].index < n - 1 {
        TokenErrorsFlag(list, field, repeated, blank, tokens, n - 1, prev[a]);
      }
      var es := TokenErrors(list, field, repeated, blank, tokens, n);
      assert es == prev || (|es| == |prev| + 1 && es[..|prev|] == prev && es[|prev|].index == n - 1);
      forall a, b | 0 <= a < b < |es| ensures es[a].index < es[b].index < n {
        if b < |prev| {
          assert es[a] == prev[a] && es[b] == prev[b];
        } else {
          assert es[a] == prev[a] && es[b].index == n - 1;
        }
      }
    }
  }

  /** The `forEach` of a check: a set of the names seen so far, and an error for each repeat or blank entry. */
  method FlagTokens(list: string, field: string, repeated: string, blank: string, tokens: seq<Token>)
    returns (errors: seq<FieldError>)
    ensures errors == TokenErrors(list, field, repeated, blank, tokens, |tokens|)
  {
    errors := [];
    var seen: set<string> := {};
    for i := 0 to |tokens|
      invariant errors == TokenErrors(list, field, repeated, blank, tokens, i)
      invariant forall k :: k in seen <==> Name(k) in tokens[..i]
    {
      match tokens[i]
      case Skipped =>
      case Blank =>
        errors := errors + [FieldError(list, i, field, blank)];
      case Name(name) =>
        if name in seen {
          errors := errors + [FieldError(list, i, field, repeated)];
        } else {
          seen := seen + {name};
        }
      assert tokens[..i + 1] == tokens[..i] + [tokens[i]];
    }
  }

  // ---------------------------------------------------------------------------
  // validateUniqueSkills, validateUniqueLanguages, validateKnowledgeTokens
  // ---------------------------------------------------------------------------

  /** `if (entry.title)`: a truthy title is compared by `title.toLowerCase().trim()`. */
  function TitleToken(entry: Value): (r: Token)
    ensures !r.Blank?
    ensures r.Name? <==> Get(entry, "title").Str? && Get(entry, "title").s != []
  {
    var title := Get(entry, "title");
    if title.Str? && title.s != [] then Name(Trim(ToLower(title.s))) else Skipped
  }

  function TitleTokens(entries: seq<Value>): (r: seq<Token>)
    ensures |r| == |entries|
    ensures forall i :: 0 <= i < |entries| ==> r[i] == TitleToken(entries[i])
  {
    if entries == [] then [] else [TitleToken(entries[0])] + TitleTokens(entries[1..])
  }

  /**
   * `if (item.value)`: a truthy value that is blank once trimmed is flagged
   * as empty; any other is compared by `value.trim().toLowerCase()`.
   */
  function KeywordToken(item: Value): (r: Token)
    ensures r.Skipped? <==> !(Get(item, "value").Str? && Get(item, "value").s != [])
    ensures r.Blank? <==> Get(item, "value").Str? && Get(item, "value").s != [] && IsBlank(Get(item, "value").s)
  {
    var value := Get(item, "value");
    if !(value.Str? && value.s != []) then Skipped
    else if Trim(value.s) == [] then Blank
    else Name(ToLower(Trim(value.s)))
  }

  function KeywordTokens(items: seq<Value>): (r: seq<Token>)
    ensures |r| == |items|
    ensures forall i :: 0 <= i < |items| ==> r[i] == KeywordToken(items[i])
  {
    if items == [] then [] else [KeywordToken(items[0])] + KeywordTokens(items[1..])
  }

  /**
   * `validateUniqueSkills(skills)` with `list = "working_skills"` and
   * `validateUniqueLanguages(languages)` with `list = "languages"`: the two
   * differ only in the list name and the message.
   */
  method ValidateUniqueTitles(list: string, message: string, entries: seq<Value>) returns (errors: seq<FieldError>)
    ensures errors == TokenErrors(list, "title", message, "", TitleTokens(entries), |entries|)
  {
    errors := FlagTokens(list, "title", message, "", TitleTokens(entries));
  }

  /** `validateKnowledgeTokens(knowledge)` */
  method ValidateKnowledgeTokens(items: seq<Value>) returns (errors: seq<FieldError>)
    ensures errors == TokenErrors("knowledge", "value", DuplicateKeywordMessage, EmptyKeywordMessage, KeywordTokens(items), |items|)
  {
    errors := FlagTokens("knowledge", "value", DuplicateKeywordMessage, EmptyKeywordMessage, KeywordTokens(items));
  }

  /** Skill and language names never count as blank: a title of spaces is a name like any other. */
  lemma TitleErrorsAreRepeats(list: string, message: string, entries: seq<Value>, e: FieldError)
    ensures e in TokenErrors(list, "title", message, "", TitleTokens(entries), |entries|) <==>
      e.list == list && e.field == "title" && e.message == message && e.index < |entries| &&
      Repeats(TitleTokens(entries), e.index)
  {
    TokenErrorsFlag(list, "title", message, "", TitleTokens(entries), |entries|, e);
  }

  // ---------------------------------------------------------------------------
  // validateForm and submitForm
  // ---------------------------------------------------------------------------

  function SkillErrors(values: Value): seq<FieldError> {
    var skills := ListOf(values, "working_skills");
    TokenErrors("working_skills", "title", SkillMessage, "", TitleTokens(skills), |skills|)
  }

  function LanguageErrors(values: Value): seq<FieldError> {
    var languages := ListOf(values, "languages");
    TokenErrors("languages", "title", LanguageMessage, "", TitleTokens(languages), |languages|)
  }

  function KnowledgeErrors(values: Value): seq<FieldError> {
    var knowledge := ListOf(values, "knowledge");
    TokenErrors("knowledge", "value", DuplicateKeywordMessage, EmptyKeywordMessage, KeywordTokens(knowledge), |knowledge|)
  }

  /** The union of the three checks, skills first, then languages, then keywords. */
  function FormErrors(values: Value): (r: seq<FieldError>)
    ensures forall e :: e in r ==>
      (e.list == "working_skills" && e.field == "title" && e.index < |ListOf(values, "working_skills")|) ||
      (e.list == "languages" && e.field == "title" && e.index < |ListOf(values, "languages")|) ||
      (e.list == "knowledge" && e.field == "value" && e.index < |ListOf(values, "knowledge")|)
  {
    SkillErrors(values) + LanguageErrors(values) + KnowledgeErrors(values)
  }

  /** `validateForm(values)` */
  method ValidateForm(values: Value) returns (errors: seq<FieldError>)
    ensures errors == FormErrors(values)
  {
    var skillErrors: seq<FieldError> := [];
    if Get(values, "working_skills").Arr? {
      skillErrors := ValidateUniqueTitles("working_skills", SkillMessage, Get(values, "working_skills").items);
    }
    assert skillErrors == SkillErrors(values);
    var languageErrors: seq<FieldError> := [];
    if Get(values, "languages").Arr? {
      languageErrors := ValidateUniqueTitles("languages", LanguageMessage, Get(values, "languages").items);
    }
    assert languageErrors == LanguageErrors(values);
    var knowledgeErrors: seq<FieldError> := [];
    if Get(values, "knowledge").Arr? {
      knowledgeErrors := ValidateKnowledgeTokens(Get(values, "knowledge").items);
    }
    assert knowledgeErrors == KnowledgeErrors(values);
    errors := skillErrors + languageErrors + knowledgeErrors;
  }

  /** A list passes exactly when no entry is blank and no entry repeats an earlier name. */
  lemma TokenErrorsEmpty(list: string, field: string, repeated: string, blank: string, tokens: seq<Token>)
    ensures TokenErrors(list, field, repeated, blank, tokens, |tokens|) == [] <==> NoBlank(tokens) && NoRepeats(tokens)
  {
    var es := TokenErrors(list, field, repeated, blank, tokens, |tokens|);
    if es != [] {
      TokenErrorsFlag(list, field, repeated, blank, tokens, |tokens|, es[0]);
    } else {
      forall i | 0 <= i < |tokens| ensures !tokens[i].Blank? && !Repeats(tokens, i) {
        var m := TokenError(tokens, i, repeated, blank);
        if m.Some? {
          TokenErrorsFlag(list, field, repeated, blank, tokens, |tokens|, FieldError(list, i, field, m.value));
        }
      }
    }
  }

  /** No entry repeats the name of an earlier one. */
  predicate NoRepeats(tokens: seq<Token>) {
    forall i :: 0 <= i < |tokens| ==> !Repeats(tokens, i)
  }

  /** No entry is blank. */
  predicate NoBlank(tokens: seq<Token>) {
    forall i :: 0 <= i < |tokens| ==> !tokens[i].Blank?
  }

  /**
   * The form passes exactly when no skill or language repeats an earlier
   * name, and no keyword is blank or repeats an earlier one.
   */
  lemma FormErrorsEmpty(values: Value)
    ensures FormErrors(values) == [] <==>
      NoRepeats(TitleTokens(ListOf(values, "working_skills"))) &&
      NoRepeats(TitleTokens(ListOf(values, "languages"))) &&
      NoBlank(KeywordTokens(ListOf(values, "knowledge"))) && NoRepeats(KeywordTokens(ListOf(values, "knowledge")))
  {
    TitleErrorsEmpty("working_skills", SkillMessage, ListOf(values, "working_skills"));
    TitleErrorsEmpty("languages", LanguageMessage, ListOf(values, "languages"));
    KeywordErrorsEmpty(ListOf(values, "knowledge"));
  }

  lemma TitleErrorsEmpty(list: string, message: string, entries: seq<Value>)
    ensures TokenErrors(list, "title", message, "", TitleTokens(entries), |entries|) == [] <==> NoRepeats(TitleTokens(entries))
  {
    var tokens := TitleTokens(entries);
    TokenErrorsEmpty(list, "title", message, "", tokens);
    assert NoBlank(tokens);
  }

  lemma KeywordErrorsEmpty(items: seq<Value>)
    ensures TokenErrors("knowledge", "value", DuplicateKeywordMessage, EmptyKeywordMessage, KeywordTokens(items), |items|) == [] <==>
      NoBlank(KeywordTokens(items)) && NoRepeats(KeywordTokens(items))
  {
    TokenErrorsEmpty("knowledge", "value", DuplicateKeywordMessage, EmptyKeywordMessage, KeywordTokens(items));
  }

  /** What `submitForm` does once it has validated the values. */
  datatype SubmitOutcome =
    | Rejected(errors: seq<FieldError>)   // every error is set on the form and `onNext` is not called
    | Next                                // `onNext(values)` is called

  /** `submitForm(values)` up to the call of `onNext`. */
  method SubmitForm(values: Value) returns (r: SubmitOutcome)
    ensures r.Next? <==> FormErrors(values) == []
    ensures r.Rejected? ==> r.errors == FormErrors(values) && r.errors != []
  {
    var errors := ValidateForm(values);
    if |errors| > 0 {
      return Rejected(errors);
    }
    return Next;
  }

  // ---------------------------------------------------------------------------
  // Reordering by drag and drop
  // ---------------------------------------------------------------------------

  /** `items.splice(from, 1)` then `items.splice(to, 0, moved)`. */
  function Move<T>(items: seq<T>, from: nat, to: nat): (r: seq<T>)
    requires from < |items| && to < |items|
    ensures |r| == |items| && r[to] == items[from]
  {
    var rest := items[..from] + items[from + 1..];
    rest[..to] + [items[from]] + rest[to..]
  }

  /** A move keeps every item, puts the moved one at the destination and keeps the others in order. */
  lemma MoveIsPermutation<T>(items: seq<T>, from: nat, to: nat)
    requires from < |items| && to < |items|
    ensures |Move(items, from, to)| == |items|
    ensures multiset(Move(items, from, to)) == multiset(items)
    ensures Move(items, from, to)[to] == items[from]
    ensures var rest := items[..from] + items[from + 1..];
      Move(items, from, to)[..to] + Move(items, from, to)[to + 1..] == rest
  {
    var rest := items[..from] + items[from + 1..];
    var r := Move(items, from, to);
    assert items == items[..from] + [items[from]] + items[from + 1..];
    assert rest == rest[..to] + rest[to..];
    calc {
      multiset(r);
      multiset(rest[..to]) + multiset([items[from]]) + multiset(rest[to..]);
      multiset(rest) + multiset([items[from]]);
      multiset(items[..from]) + multiset(items[from + 1..]) + multiset([items[from]]);
      multiset(items);
    }
    assert r[..to] == rest[..to];
    assert r[to + 1..] == rest[to..];
  }

  /** `removeSkill(i)` / `removeLanguage(i)`: the entry at `i` goes; an index past the end removes nothing. */
  function RemoveAt<T>(items: seq<T>, i: nat): (r: seq<T>)
    ensures i < |items| ==> |r| == |items| - 1 && r[..i] == items[..i] && r[i..] == items[i + 1..]
    ensures i >= |items| ==> r == items
  {
    if i < |items| then items[..i] + items[i + 1..] else items
  }

  /** The list a drag starts from and ends in, with the index in that list. */
  datatype DragPlace = DragPlace(droppableId: string, index: nat)

  /** The confirmation dialog: closed, or open to delete entry `index` of the list named by `kind`. */
  datatype ConfirmModal = Closed | Open(kind: string, index: nat)

  /** The skills and languages of the form, and the delete confirmation dialog. */
  class SkillsForm {
    var skills: seq<Fields>
    var languages: seq<Fields>
    var modal: ConfirmModal

    constructor (skills: seq<Fields>, languages: seq<Fields>)
      ensures this.skills == skills && this.languages == languages && modal == Closed
    {
      this.skills := skills;
      this.languages := languages;
      modal := Closed;
    }

    /** `handleDeleteSkill(i)` / `handleDeleteLanguage(i)`: ask before deleting. */
    method AskDelete(kind: string, index: nat)
      modifies this
      ensures modal == Open(kind, index) && skills == old(skills) && languages == old(languages)
    {
      modal := Open(kind, index);
    }

    /** `confirmDelete()`: removes only the asked-for entry of the named list, then closes the dialog. */
    method ConfirmDelete()
      modifies this
      ensures modal == Closed
      ensures old(modal).Open? && old(modal).kind == "skill" ==>
        skills == RemoveAt(old(skills), old(modal).index) && languages == old(languages)
      ensures old(modal).Open? && old(modal).kind == "language" ==>
        languages == RemoveAt(old(languages), old(modal).index) && skills == old(skills)
      ensures !(old(modal).Open? && (old(modal).kind == "skill" || old(modal).kind == "language")) ==>
        skills == old(skills) && languages == old(languages)
    {
      if modal.Open? && modal.kind == "skill" {
        skills := RemoveAt(skills, modal.index);
      } else if modal.Open? && modal.kind == "language" {
        languages := RemoveAt(languages, modal.index);
      }
      modal := Closed;
    }

    /**
     * `handleDragEnd(result)`: a drop inside the list it started from moves
     * the card; the moved order is written back field by field, so a row's
     * other keys stay where they were. A drop elsewhere changes nothing.
     */
    method HandleDragEnd(source: DragPlace, destination: Option<DragPlace>)
      modifies this
      requires source.droppableId == "skills" ==> source.index < |skills|
      requires source.droppableId == "languages" ==> source.index < |languages|
      requires destination.Some? && destination.value.droppableId == "skills" ==> destination.value.index < |skills|
      requires destination.Some? && destination.value.droppableId == "languages" ==> destination.value.index < |languages|
      ensures modal == old(modal)
      ensures destination.Some? && source.droppableId == "skills" && destination.value.droppableId == "skills" ==>
        var moved := Move(old(skills), source.index, destination.value.index);
        languages == old(languages) && |skills| == |old(skills)| &&
        forall i :: 0 <= i < |skills| ==> skills[i] == WriteBack(old(skills)[i], moved[i], SkillKeys)
      ensures destination.Some? && source.droppableId == "languages" && destination.value.droppableId == "languages" ==>
        var moved := Move(old(languages), source.index, destination.value.index);
        skills == old(skills) && |languages| == |old(languages)| &&
        forall i :: 0 <= i < |languages| ==> languages[i] == WriteBack(old(languages)[i], moved[i], LanguageKeys)
      ensures !(destination.Some? && source.droppableId == destination.value.droppableId &&
                (source.droppableId == "skills" || source.droppableId == "languages")) ==>
        skills == old(skills) && languages == old(languages)
    {
      if destination.None? {
        return;
      }
      var to := destination.value;
      if source.droppableId == "skills" && to.droppableId == "skills" {
        WriteBackSkills(Move(skills, source.index, to.index), SkillKeys);
      } else if source.droppableId == "languages" && to.droppableId == "languages" {
        WriteBackLanguages(Move(languages, source.index, to.index), LanguageKeys);
      }
    }

    /** The `forEach` that writes each moved skill's `keys` back into its row of the form. */
    method WriteBackSkills(items: seq<Fields>, keys: seq<string>)
      requires |items| == |skills|
      modifies this
      ensures |skills| == |old(skills)|
      ensures forall j :: 0 <= j < |skills| ==> skills[j] == WriteBack(old(skills)[j], items[j], keys)
      ensures languages == old(languages) && modal == old(modal)
    {
      var i := 0;
      while i < |items|
        invariant 0 <= i <= |items| == |skills| == |old(skills)|
        invariant forall j :: 0 <= j < i ==> skills[j] == WriteBack(old(skills)[j], items[j], keys)
        invariant forall j :: i <= j < |skills| ==> skills[j] == old(skills)[j]
        invariant languages == old(languages) && modal == old(modal)
      {
        skills := skills[i := WriteBack(skills[i], items[i], keys)];
        i := i + 1;
      }
    }

    /** The same `forEach` over the languages. */
    method WriteBackLanguages(items: seq<Fields>, keys: seq<string>)
      requires |items| == |languages|
      modifies this
      ensures |languages| == |old(languages)|
      ensures forall j :: 0 <= j < |languages| ==> languages[j] == WriteBack(old(languages)[j], items[j], keys)
      ensures skills == old(skills) && modal == old(modal)
    {
      var i := 0;
      while i < |items|
        invariant 0 <= i <= |items| == |languages| == |old(languages)|
        invariant forall j :: 0 <= j < i ==> languages[j] == WriteBack(old(languages)[j], items[j], keys)
        invariant forall j :: i <= j < |languages| ==> languages[j] == old(languages)[j]
        invariant skills == old(skills) && modal == old(modal)
      {
        languages := languages[i := WriteBack(languages[i], items[i], keys)];
        i := i + 1;
      }
    }
  }

  /** The fields a drop writes back: `title` and `percentage` for skills, and `level` too for languages. */
  const SkillKeys: seq<string> := ["title", "percentage"]
  const LanguageKeys: seq<string> := ["title", "level", "percentage"]

  /** `setValue(<list>.<i>.<key>, item[key])` for each written key, in order. */
  function WriteBack(row: Fields, item: Fields, keys: seq<string>): (r: Fields)
    ensures forall k :: k in keys ==> Lookup(r, k) == Lookup(item, k)
    ensures forall k :: k !in keys ==> Lookup(r, k) == Lookup(row, k)
    decreases |keys|
  {
    if keys == [] then row else WriteBack(Put(row, keys[0], Lookup(item, keys[0])), item, keys[1..])
  }

  /** A written-back row takes its title from the item when `title` is among the written keys. */
  lemma WriteBackTitle(row: Fields, item: Fields, keys: seq<string>)
    requires "title" in keys
    ensures Lookup(WriteBack(row, item, keys), "title") == Lookup(item, "title")
  {
  }

  /** The `title` of every row. */
  function Titles(rows: seq<Fields>): (r: seq<Value>)
    ensures |r| == |rows|
    ensures forall i :: 0 <= i < |rows| ==> r[i] == Lookup(rows[i], "title")
  {
    if rows == [] then [] else [Lookup(rows[0], "title")] + Titles(rows[1..])
  }

  /**
   * After a drop within a list, its titles are the old titles in the moved
   * order.
   */
  lemma DragMovesTitles(before: seq<Fields>, after: seq<Fields>, from: nat, to: nat, keys: seq<string>)
    requires from < |before| && to < |before| && |after| == |before|
    requires "title" in keys
    requires forall i :: 0 <= i < |after| ==> after[i] == WriteBack(before[i], Move(before, from, to)[i], keys)
    ensures Titles(after) == Move(Titles(before), from, to)
  {
    forall i | 0 <= i < |after| ensures Lookup(after[i], "title") == Lookup(Move(before, from, to)[i], "title") {
      WriteBackTitle(before[i], Move(before, from, to)[i], keys);
    }
    MovedTitles(before, after, from, to);
  }

  /** Rows whose titles are those of the moved rows have the moved titles. */
  lemma MovedTitles(before: seq<Fields>, after: seq<Fields>, from: nat, to: nat)
    requires from < |before| && to < |before| && |after| == |before|
    requires forall i :: 0 <= i < |after| ==> Lookup(after[i], "title") == Lookup(Move(before, from, to)[i], "title")
    ensures Titles(after) == Move(Titles(before), from, to)
  {
    var titles := Titles(before);
    MoveIsPermutation(titles, from, to);
    MoveIsPermutation(before, from, to);
    forall i | 0 <= i < |after| ensures Titles(after)[i] == Move(titles, from, to)[i] {
      MoveAt(before, from, to, i);
      MoveAt(titles, from, to, i);
    }
  }

  /** A drop within a list puts the dragged title at the destination and loses no title or adds one. */
  lemma DragKeepsTitles(before: seq<Fields>, after: seq<Fields>, from: nat, to: nat, keys: seq<string>)
    requires from < |before| && to < |before| && |after| == |before|
    requires "title" in keys
    requires forall i :: 0 <= i < |after| ==> after[i] == WriteBack(before[i], Move(before, from, to)[i], keys)
    ensures Titles(after)[to] == Titles(before)[from]
    ensures multiset(Titles(after)) == multiset(Titles(before))
  {
    DragMovesTitles(before, after, from, to, keys);
    MoveIsPermutation(Titles(before), from, to);
  }

  /** Where each position of a moved list comes from. */
  lemma MoveAt<T>(items: seq<T>, from: nat, to: nat, i: nat)
    requires from < |items| && to < |items| && i < |items|
    ensures Move(items, from, to)[i] ==
      if i == to then items[from]
      else if i < to then (if i < from then items[i] else items[i + 1])
      else (if i <= from then items[i - 1] else items[i])
  {
  }
}
