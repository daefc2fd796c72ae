/**
 * The tag-list editor: adding a typed tag (trimmed, unique, at most three
 * words, at most `maxItems` tags), removing one, the keyboard shortcuts, the
 * paste handler that cuts the pasted words into tags of three words, and the
 * collapsed view that hides the tags past `maxItems`.
 *
 * A handler that calls `onChange(tags)` yields `Some(tags)`; one that does
 * not call it yields `None`.
 */
module TagsInput {
  import opened Wrappers
  import opened Text

  /** The default of the `maxItems` prop. */
  const DefaultMaxItems: nat := 20

  /** A tag list without repeated tags. */
  predicate Distinct(tags: seq<string>) {
    forall i, j :: 0 <= i < j < |tags| ==> tags[i] != tags[j]
  }

  /** A tag of one to three words. */
  predicate ShortTag(t: string) {
    1 <= |Words(t)| <= 3
  }

  // ---------------------------------------------------------------------------
  // Joined words
  // ---------------------------------------------------------------------------

  /** Words joined by single spaces start and end with a non-space character. */
  lemma {:induction false} JoinEnds(ws: seq<string>)
    requires WellFormedWords(ws) && ws != []
    ensures var s := Join(ws, " "); s != [] && !IsSpace(s[0]) && !IsSpace(s[|s| - 1])
    decreases |ws|
  {
    if |ws| > 1 {
      JoinEnds(ws[1..]);
      JoinSpaceCons(ws);
      var tail := Join(ws[1..], " ");
      var s := Join(ws, " ");
      assert s[0] == ws[0][0];
      assert s[|s| - 1] == tail[|tail| - 1];
    }
  }

  /** One to three well-formed words joined by single spaces make a short tag. */
  lemma JoinIsShortTag(ws: seq<string>)
    requires WellFormedWords(ws) && 1 <= |ws| <= 3
    ensures ShortTag(Join(ws, " ")) && Words(Join(ws, " ")) == ws
  {
    WordsOfJoin(ws);
  }

  // ---------------------------------------------------------------------------
  // addTag / removeTag
  // ---------------------------------------------------------------------------

  /** The tag `addTag` would append for a trimmed, non-empty input: the input, or its first three words. */
  function Limited(trimmed: string): (t: string)
  {
    var words := Words(trimmed);
    if |words| <= 3 then trimmed else Join(words[..3], " ")
  }

  /** `addTag(tag)` */
  function AddTag(tags: seq<string>, tag: string, maxItems: nat): (r: Option<seq<string>>)
    ensures Trim(tag) == [] || Trim(tag) in tags || |tags| >= maxItems ==> r == None
    ensures r.Some? ==> r.value == tags + [Limited(Trim(tag))] && Limited(Trim(tag)) !in tags
    ensures Trim(tag) != [] && Trim(tag) !in tags && |tags| < maxItems && Limited(Trim(tag)) !in tags ==> r.Some?
  {
    var trimmed := Trim(tag);
    if trimmed != [] && trimmed !in tags && |tags| < maxItems then
      var words := Words(trimmed);
      if |words| <= 3 then Some(tags + [trimmed])
      else
        var limitedTag := Join(words[..3], " ");
        if limitedTag !in tags then Some(tags + [limitedTag]) else None
    else None
  }

  /**
   * The tag `addTag` appends holds one to three words: a tag of at most three
   * words is kept as typed, trimmed; a longer one is cut to its first three
   * words, joined by single spaces.
   */
  lemma AddedTagIsShort(tags: seq<string>, tag: string, maxItems: nat)
    requires AddTag(tags, tag, maxItems).Some?
    ensures ShortTag(Limited(Trim(tag)))
    ensures |Words(Trim(tag))| <= 3 ==> Limited(Trim(tag)) == Trim(tag)
    ensures |Words(Trim(tag))| > 3 ==> Words(Limited(Trim(tag))) == Words(Trim(tag))[..3]
  {
    LimitedIsShort(Trim(tag));
  }

  /** What `Limited` makes of a trimmed, non-empty input. */
  lemma LimitedIsShort(trimmed: string)
    requires trimmed != [] && !IsSpace(trimmed[0])
    ensures ShortTag(Limited(trimmed))
    ensures |Words(trimmed)| <= 3 ==> Limited(trimmed) == trimmed
    ensures |Words(trimmed)| > 3 ==> Words(Limited(trimmed)) == Words(trimmed)[..3]
  {
    var words := Words(trimmed);
    WordsNonEmpty(trimmed);
    if |words| > 3 {
      JoinIsShortTag(words[..3]);
    }
  }

  /** A string that starts with a non-space character has at least one word. */
  lemma WordsNonEmpty(s: string)
    requires s != [] && !IsSpace(s[0])
    ensures Words(s) != []
  {
    assert TrimStart(s) == s;
  }

  /** `addTag` keeps the tags distinct and never goes past `maxItems`. */
  lemma AddTagKeepsInvariant(tags: seq<string>, tag: string, maxItems: nat)
    requires Distinct(tags) && |tags| <= maxItems
    ensures var r := AddTag(tags, tag, maxItems);
      r.Some? ==> Distinct(r.value) && |r.value| <= maxItems && r.value[..|tags|] == tags
  {
    var r := AddTag(tags, tag, maxItems);
    if r.Some? {
      assert r.value[..|tags|] == tags;
    }
  }

  /** `removeTag(indexToRemove)`: the filter drops exactly the element at that index, if any. */
  function RemoveTag(tags: seq<string>, indexToRemove: int): (r: seq<string>)
    ensures 0 <= indexToRemove < |tags| ==> (
      |r| == |tags| - 1
      && (forall j :: 0 <= j < indexToRemove ==> r[j] == tags[j])
      && (forall j :: indexToRemove <= j < |r| ==> r[j] == tags[j + 1]))
    ensures !(0 <= indexToRemove < |tags|) ==> r == tags
  {
    if 0 <= indexToRemove < |tags| then tags[..indexToRemove] + tags[indexToRemove + 1..] else tags
  }

  /** Removing keeps the tags distinct. */
  lemma RemoveTagKeepsDistinct(tags: seq<string>, indexToRemove: int)
    requires Distinct(tags)
    ensures Distinct(RemoveTag(tags, indexToRemove))
  {
    var r := RemoveTag(tags, indexToRemove);
    if 0 <= indexToRemove < |tags| {
      forall i, j | 0 <= i < j < |r| ensures r[i] != r[j] {
        var i' := if i < indexToRemove then i else i + 1;
        var j' := if j < indexToRemove then j else j + 1;
        assert r[i] == tags[i'] && r[j] == tags[j'];
      }
    }
  }

  // ---------------------------------------------------------------------------
  // handleKeyDown
  // ---------------------------------------------------------------------------

  /** What a key press does: the `onChange` call, if any, and the new text of the input. */
  datatype KeyOutcome = KeyOutcome(change: Option<seq<string>>, input: string)

  /** `handleKeyDown(e)`; the arrow keys only move the focus, which is not modelled. */
  function HandleKeyDown(key: string, input: string, tags: seq<string>, maxItems: nat, disabled: bool): (r: KeyOutcome)
    ensures disabled ==> r == KeyOutcome(None, input)
    ensures !disabled && (key == "Enter" || key == ",") && Trim(input) != [] ==> r == KeyOutcome(AddTag(tags, input, maxItems), "")
    ensures !disabled && (key == "Enter" || key == ",") && Trim(input) == [] ==> r == KeyOutcome(None, input)
    ensures !disabled && key == "Backspace" && input == [] && tags != [] ==> r == KeyOutcome(Some(tags[..|tags| - 1]), input)
    ensures !disabled && key != "Enter" && key != "," && !(key == "Backspace" && input == [] && tags != []) ==> r == KeyOutcome(None, input)
  {
    if disabled then KeyOutcome(None, input)
    else if key == "Enter" || key == "," then
      if Trim(input) != [] then KeyOutcome(AddTag(tags, input, maxItems), "") else KeyOutcome(None, input)
    else if key == "Backspace" && input == [] && |tags| > 0 then
      assert RemoveTag(tags, |tags| - 1) == tags[..|tags| - 1];
      KeyOutcome(Some(RemoveTag(tags, |tags| - 1)), input)
    else KeyOutcome(None, input)
  }

  // ---------------------------------------------------------------------------
  // handlePaste
  // ---------------------------------------------------------------------------

  /** `words.slice(i, i + 3).join(' ')` */
  function Chunk(words: seq<string>, i: nat): (c: string)
    requires i < |words|
  {
    Join(words[i..if i + 3 <= |words| then i + 3 else |words|], " ")
  }

  /** The tokens the first loop of `handlePaste` collects from index `i` on. */
  function ChunksFrom(words: seq<string>, i: nat): (tokens: seq<string>)
    decreases |words| - i
  {
    if i >= |words| then []
    else
      var chunk := Chunk(words, i);
      (if Trim(chunk) != [] then [Trim(chunk)] else []) + ChunksFrom(words, i + 3)
  }

  /** Every token is a short tag made of consecutive pasted words. */
  lemma {:induction false} ChunksAreShortTags(words: seq<string>, i: nat, t: string)
    requires WellFormedWords(words)
    requires t in ChunksFrom(words, i)
    ensures ShortTag(t)
    decreases |words| - i
  {
    if i < |words| {
      var chunk := Chunk(words, i);
      ChunkIsShortTag(words, i);
      var head := if Trim(chunk) != [] then [Trim(chunk)] else [];
      assert ChunksFrom(words, i) == head + ChunksFrom(words, i + 3);
      if t !in head {
        ChunksAreShortTags(words, i + 3, t);
      }
    }
  }

  /** A chunk of well-formed words is already trimmed and is a short tag. */
  lemma ChunkIsShortTag(words: seq<string>, i: nat)
    requires WellFormedWords(words) && i < |words|
    ensures Trim(Chunk(words, i)) == Chunk(words, i) && ShortTag(Chunk(words, i))
  {
    var end := if i + 3 <= |words| then i + 3 else |words|;
    assert WellFormedWords(words[i..end]);
    JoinEnds(words[i..end]);
    TrimOfTrimmed(Chunk(words, i));
    JoinIsShortTag(words[i..end]);
  }

  /** One step of the second loop: a new token is pushed while there is room. */
  function AddToken(tags: seq<string>, token: string, maxItems: nat): (r: seq<string>)
    ensures |tags| <= |r| <= |tags| + 1 && r[..|tags|] == tags
    ensures |r| > |tags| ==> r[|tags|] == token && token != []
    ensures Distinct(tags) ==> Distinct(r)
    ensures |tags| <= maxItems ==> |r| <= maxItems
  {
    if token != [] && token !in tags && |tags| < maxItems then tags + [token] else tags
  }

  /** The second loop of `handlePaste` over the remaining tokens. */
  function AddTokens(tags: seq<string>, tokens: seq<string>, maxItems: nat): (r: seq<string>)
    decreases |tokens|
  {
    if tokens == [] then tags else AddTokens(AddToken(tags, tokens[0], maxItems), tokens[1..], maxItems)
  }

  /**
   * The second loop only appends tokens that are new, while the list is
   * below `maxItems`: the old tags stay first and in order, the list stays
   * distinct and does not grow past `maxItems`.
   */
  lemma {:induction false} AddTokensKeepsInvariant(tags: seq<string>, tokens: seq<string>, maxItems: nat)
    requires Distinct(tags)
    ensures var r := AddTokens(tags, tokens, maxItems);
      Distinct(r) && |tags| <= |r| && r[..|tags|] == tags
      && (|tags| <= maxItems ==> |r| <= maxItems)
      && (forall k :: |tags| <= k < |r| ==> r[k] in tokens)
    decreases |tokens|
  {
    if tokens != [] {
      var next := AddToken(tags, tokens[0], maxItems);
      assert Distinct(next);
      AddTokensKeepsInvariant(next, tokens[1..], maxItems);
      var r := AddTokens(tags, tokens, maxItems);
      assert next[..|tags|] == tags;
      assert r[..|next|] == next;
      assert r[..|tags|] == next[..|tags|];
      forall k | |tags| <= k < |r| ensures r[k] in tokens {
        if k < |next| {
          assert r[k] == next[k] == tokens[0];
        } else {
          assert r[k] in tokens[1..];
        }
      }
    }
  }

  /**
   * `handlePaste(e)` on the pasted text. The words are those of
   * `text.trim().split(/\s+/)`; for a blank text that split gives one empty
   * word, whose empty chunk the loop skips, so it adds nothing either way.
   */
  method HandlePaste(tags: seq<string>, text: string, maxItems: nat) returns (r: Option<seq<string>>)
    ensures var added := AddTokens(tags, ChunksFrom(Words(text), 0), maxItems);
      r == if |added| != |tags| then Some(added) else None
  {
    var tokens := CollectTokens(Words(text));
    var newTags := PushTokens(tags, tokens, maxItems);
    if |newTags| != |tags| {
      return Some(newTags);
    }
    return None;
  }

  /** The paste loop over the words, three at a time, collecting each trimmed non-empty chunk. */
  method CollectTokens(words: seq<string>) returns (tokens: seq<string>)
    ensures tokens == ChunksFrom(words, 0)
  {
    tokens := [];
    var i := 0;
    while i < |words|
      invariant tokens + ChunksFrom(words, i) == ChunksFrom(words, 0)
      decreases |words| - i
    {
      var chunk := Chunk(words, i);
      var token := Trim(chunk);
      CollectStep(tokens, words, i);
      if token != [] {
        tokens := tokens + [token];
      }
      i := i + 3;
    }
  }

  /** One round of the paste loop: pushing the chunk at `i` when it is not blank leaves the same tokens to come. */
  lemma CollectStep(tokens: seq<string>, words: seq<string>, i: nat)
    requires i < |words|
    ensures var token := Trim(Chunk(words, i));
      (if token != [] then tokens + [token] else tokens) + ChunksFrom(words, i + 3) == tokens + ChunksFrom(words, i)
  {
    var token := Trim(Chunk(words, i));
    ChunksFromStep(words, i);
    PushStep(tokens, token, token != [], ChunksFrom(words, i + 3), ChunksFrom(words, i));
  }

  /** `ChunksFrom` unfolded once. */
  lemma ChunksFromStep(words: seq<string>, i: nat)
    requires i < |words|
    ensures var token := Trim(Chunk(words, i));
      ChunksFrom(words, i) == (if token != [] then [token] else []) + ChunksFrom(words, i + 3)
  {
  }

  lemma PushStep<T>(tokens: seq<T>, token: T, pushed: bool, rest: seq<T>, whole: seq<T>)
    requires whole == (if pushed then [token] else []) + rest
    ensures (if pushed then tokens + [token] else tokens) + rest == tokens + whole
  {
    if pushed {
      assert (tokens + [token]) + rest == tokens + ([token] + rest);
    }
  }

  /** The `forEach` that pushes each token that is non-empty, new and within `maxItems`. */
  method PushTokens(tags: seq<string>, tokens: seq<string>, maxItems: nat) returns (newTags: seq<string>)
    ensures newTags == AddTokens(tags, tokens, maxItems)
  {
    newTags := tags;
    for j := 0 to |tokens|
      invariant AddTokens(newTags, tokens[j..], maxItems) == AddTokens(tags, tokens, maxItems)
    {
      assert tokens[j..][1..] == tokens[j + 1..];
      var token := tokens[j];
      if token != [] && token !in newTags && |newTags| < maxItems {
        newTags := newTags + [token];
      }
    }
    assert tokens[|tokens|..] == [];
  }

  /** Pushing the tokens of well-formed words keeps the list distinct, within `maxItems`, and adds only short tags after the old ones. */
  lemma AddChunksKeepsInvariant(tags: seq<string>, words: seq<string>, maxItems: nat)
    requires Distinct(tags) && |tags| <= maxItems && WellFormedWords(words)
    ensures var r := AddTokens(tags, ChunksFrom(words, 0), maxItems);
      Distinct(r) && |r| <= maxItems && |tags| <= |r| && r[..|tags|] == tags
      && forall k :: |tags| <= k < |r| ==> ShortTag(r[k])
  {
    var tokens := ChunksFrom(words, 0);
    AddTokensKeepsInvariant(tags, tokens, maxItems);
    var r := AddTokens(tags, tokens, maxItems);
    forall k | |tags| <= k < |r| ensures ShortTag(r[k]) {
      ChunksAreShortTags(words, 0, r[k]);
    }
  }

  /** A paste keeps the list distinct, within `maxItems`, and adds only short tags after the old ones. */
  lemma PasteKeepsInvariant(tags: seq<string>, text: string, maxItems: nat)
    requires Distinct(tags) && |tags| <= maxItems
    ensures var r := AddTokens(tags, ChunksFrom(Words(text), 0), maxItems);
      Distinct(r) && |r| <= maxItems && |tags| <= |r| && r[..|tags|] == tags
      && forall k :: |tags| <= k < |r| ==> ShortTag(r[k])
  {
    AddChunksKeepsInvariant(tags, Words(text), maxItems);
  }

  // ---------------------------------------------------------------------------
  // Collapsed view
  // ---------------------------------------------------------------------------

  /** `getVisibleItems()` */
  function VisibleItems(tags: seq<string>, maxItems: nat, isExpanded: bool): (r: seq<string>)
    ensures isExpanded || |tags| <= maxItems ==> r == tags
    ensures !isExpanded && |tags| > maxItems ==> r == tags[..maxItems]
  {
    if isExpanded || |tags| <= maxItems then tags else tags[..maxItems]
  }

  /** `getHiddenCount()` */
  function HiddenCount(tags: seq<string>, maxItems: nat, isExpanded: bool): (r: nat)
    ensures r <= |tags|
    ensures r == 0 <==> isExpanded || |tags| <= maxItems
  {
    if isExpanded || |tags| <= maxItems then 0 else |tags| - maxItems
  }

  /** The visible tags are a prefix of the list, and the hidden count is exactly what they leave out. */
  lemma VisiblePlusHidden(tags: seq<string>, maxItems: nat, isExpanded: bool)
    ensures var v := VisibleItems(tags, maxItems, isExpanded);
      |v| + HiddenCount(tags, maxItems, isExpanded) == |tags| && v == tags[..|v|]
    ensures HiddenCount(tags, maxItems, isExpanded) > 0 <==> !isExpanded && |tags| > maxItems
  {
  }
}
