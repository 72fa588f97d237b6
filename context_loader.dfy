/**
 * Personality, ruleset and agent texts of the backend (backend/src/ai_utils/ai_context_loader.py).
 * The loaders fill case-insensitive dictionaries from the files of four folders, given here
 * as in-memory lists of (stem, text) and of personality folders; the lookups compose a
 * personality from a video-game character, or from a custom base, variant and ruleset.
 */
module ContextLoader {
  import opened Wrappers
  import opened Text
  import opened Py

  /** A `.txt` file found by `rglob`: its stem and its text. */
  datatype SourceFile = SourceFile(stem: string, text: string)

  /** A folder of custom personalities: its name, `base.txt` if present, `variants.json` if present. */
  datatype CustomFolder = CustomFolder(name: string, base: Option<string>, variantsJson: Option<map<string, string>>)

  /** `CustomPersonality`. The intro is absent exactly when the folder has no `variants.json`. */
  datatype CustomPersonality = CustomPersonality(name: string, base: string, variantIntro: Option<string>, variants: map<string, string>)

  /** A video-game file split into its upper-cased game, its character and its text. */
  datatype GameEntry = GameEntry(game: string, character: string, text: string)

  /** The key of `variants.json` that holds the variant intro. */
  const VariantIntroKey := "_variant_intro"

  /** The intro used when `variants.json` has no `_variant_intro`. */
  const DefaultVariantIntro := "Consider the following change in personality. You are free to create a role play explanation as to"
                             + " why the change, as long as it would make sense for the character."

  /** `d.get(k)`. */
  function Get<T>(m: map<string, T>, k: string): (r: Option<T>)
    ensures r.Some? <==> k in m
    ensures r.Some? ==> r.value == m[k]
  {
    if k in m then Some(m[k]) else None
  }

  /** A dict filled by assigning the pairs in order: a later pair with the same key overwrites. */
  function Keyed<T>(pairs: seq<(string, T)>): map<string, T>
  {
    if |pairs| == 0 then map[]
    else Keyed(pairs[..|pairs| - 1])[pairs[|pairs| - 1].0 := pairs[|pairs| - 1].1]
  }

  /** Storing one more pair after a merge is the merge with that pair stored. */
  lemma UnionThenStore<T>(before: map<string, T>, pairs: seq<(string, T)>, k: string, v: T)
    ensures (before + Keyed(pairs))[k := v] == before + Keyed(pairs + [(k, v)])
  {
    assert (pairs + [(k, v)])[..|pairs|] == pairs;
  }

  lemma EmptyUnion<T>(m: map<string, T>)
    ensures map[] + m == m
  {
  }

  /** The value of the last pair with key `k`, searching from the end. */
  function LastMatch<T>(pairs: seq<(string, T)>, k: string): Option<T>
  {
    if |pairs| == 0 then None
    else if pairs[|pairs| - 1].0 == k then Some(pairs[|pairs| - 1].1)
    else LastMatch(pairs[..|pairs| - 1], k)
  }

  /** Looking a key up in the filled dict finds the value of the last pair with that key. */
  lemma {:induction false} KeyedIsLastMatch<T>(pairs: seq<(string, T)>, k: string)
    ensures Get(Keyed(pairs), k) == LastMatch(pairs, k)
  {
    if |pairs| > 0 {
      KeyedIsLastMatch(pairs[..|pairs| - 1], k);
    }
  }

  /** The files keyed by their lower-cased stem, in order. */
  function LowerPairs(files: seq<SourceFile>): (r: seq<(string, string)>)
    ensures |r| == |files|
    ensures forall i :: 0 <= i < |files| ==> r[i] == (Lower(files[i].stem), files[i].text)
  {
    seq(|files|, i requires 0 <= i < |files| => (Lower(files[i].stem), files[i].text))
  }

  /** Every key of a lower-cased dict is its own lower-case form. */
  ghost predicate LowerKeys<T>(m: map<string, T>)
  {
    forall k :: k in m ==> Lower(k) == k
  }

  /** `game_name, character_name = stem.split("_")`, the game upper-cased. */
  function ParseGameStem(stem: string): (r: Result<(string, string), Error>)
  {
    var parts := Split(stem, '_');
    if |parts| != 2 then Err(UnpackError(2, |parts|)) else Ok((Upper(parts[0]), parts[1]))
  }

  /**
   * A stem unpacks exactly when it holds one "_", into the upper-cased piece before it and
   * the piece after it; otherwise the unpacking error reports the number of pieces.
   */
  lemma ParseGameStemMeaning(stem: string)
    ensures ParseGameStem(stem).Ok? <==> multiset(stem)['_'] == 1
    ensures ParseGameStem(stem).Err? ==> ParseGameStem(stem).error == UnpackError(2, multiset(stem)['_'] + 1)
    ensures ParseGameStem(stem).Ok? ==> ParseGameStem(stem).value == (Upper(Split(stem, '_')[0]), Split(stem, '_')[1])
  {
    SplitLength(stem, '_');
  }

  /** A stem that unpacks is the game and the character around a single "_". */
  lemma GameStemRoundTrip(stem: string)
    requires ParseGameStem(stem).Ok?
    ensures var parts := Split(stem, '_'); parts[0] + "_" + parts[1] == stem && '_' !in parts[1]
  {
    JoinSplit(stem, '_');
    var parts := Split(stem, '_');
    assert Join(parts, "_") == parts[0] + "_" + parts[1];
    SplitJoinSingle(stem, parts);
  }

  /** When a text splits into two pieces, the second holds no separator. */
  lemma SplitJoinSingle(stem: string, parts: seq<string>)
    requires parts == Split(stem, '_') && |parts| == 2
    ensures '_' !in parts[1]
  {
    SplitPiecesHaveNoSeparator(stem, '_');
  }

  lemma {:induction false} SplitPiecesHaveNoSeparator(s: string, c: char)
    ensures forall i :: 0 <= i < |Split(s, c)| ==> c !in Split(s, c)[i]
    decreases |s|
  {
    if |s| > 0 {
      SplitPiecesHaveNoSeparator(s[1..], c);
    }
  }

  /** The video-game files parsed in order; the first stem that does not unpack raises. */
  function ParseGameFiles(files: seq<SourceFile>): Result<seq<GameEntry>, Error>
  {
    if |files| == 0 then Ok([])
    else
      var done := ParseGameFiles(files[..|files| - 1]);
      var last := files[|files| - 1];
      var parsed := ParseGameStem(last.stem);
      if done.Err? then Err(done.error)
      else if parsed.Err? then Err(parsed.error)
      else Ok(done.value + [GameEntry(parsed.value.0, parsed.value.1, last.text)])
  }

  /** `k` is the first file whose stem does not unpack. */
  predicate FirstBadStem(files: seq<SourceFile>, k: nat)
    requires k < |files|
  {
    ParseGameStem(files[k].stem).Err? && forall j :: 0 <= j < k ==> ParseGameStem(files[j].stem).Ok?
  }

  /**
   * The files parse exactly when every stem unpacks, and then each file gives one entry in
   * order; otherwise the error is that of the first stem that does not unpack.
   */
  lemma {:induction false} ParseGameFilesMeaning(files: seq<SourceFile>)
    ensures ParseGameFiles(files).Ok? <==> forall i :: 0 <= i < |files| ==> ParseGameStem(files[i].stem).Ok?
    ensures ParseGameFiles(files).Ok? ==> |ParseGameFiles(files).value| == |files|
    ensures ParseGameFiles(files).Ok? ==> forall i :: 0 <= i < |files| ==>
      var p := ParseGameStem(files[i].stem).value; ParseGameFiles(files).value[i] == GameEntry(p.0, p.1, files[i].text)
    ensures ParseGameFiles(files).Err? ==>
      exists k :: 0 <= k < |files| && FirstBadStem(files, k) && ParseGameFiles(files).error == ParseGameStem(files[k].stem).error
  {
    if |files| > 0 {
      var prefix := files[..|files| - 1];
      ParseGameFilesMeaning(prefix);
      assert forall i :: 0 <= i < |prefix| ==> prefix[i] == files[i];
    }
  }

  /** Once a prefix of the files raises, the whole list raises with the same error. */
  lemma {:induction false} PrefixFailureFails(files: seq<SourceFile>, n: nat)
    requires n <= |files|
    requires ParseGameFiles(files[..n]).Err?
    ensures ParseGameFiles(files) == ParseGameFiles(files[..n])
    decreases |files| - n
  {
    if n < |files| {
      assert files[..n + 1][..n] == files[..n];
      PrefixFailureFails(files, n + 1);
    } else {
      assert files[..n] == files;
    }
  }

  /** Parsing one more file extends the entries, or raises that file's error. */
  lemma ParseOneMore(files: seq<SourceFile>, i: nat, entries: seq<GameEntry>)
    requires i < |files| && ParseGameFiles(files[..i]) == Ok(entries)
    ensures var p := ParseGameStem(files[i].stem);
      ParseGameFiles(files[..i + 1]) == if p.Err? then Err(p.error) else Ok(entries + [GameEntry(p.value.0, p.value.1, files[i].text)])
  {
    assert files[..i + 1][..i] == files[..i];
  }

  /** `_game_personalities_map` after appending each entry's character to its game's list. */
  function Roster(m: map<string, seq<string>>, entries: seq<GameEntry>): map<string, seq<string>>
  {
    if |entries| == 0 then m
    else
      var r := Roster(m, entries[..|entries| - 1]);
      var e := entries[|entries| - 1];
      r[e.game := (if e.game in r then r[e.game] else []) + [e.character]]
  }

  /** One more entry: its game's list, created empty when missing, gets its character appended. */
  lemma RosterOneMore(m: map<string, seq<string>>, entries: seq<GameEntry>, e: GameEntry)
    ensures var r := Roster(m, entries);
      Roster(m, entries + [e]) == r[e.game := (if e.game in r then r[e.game] else []) + [e.character]]
  {
    assert (entries + [e])[..|entries|] == entries;
  }

  /** The characters of the entries of one game, in order. */
  function CharactersOf(entries: seq<GameEntry>, game: string): seq<string>
  {
    if |entries| == 0 then []
    else
      var e := entries[|entries| - 1];
      CharactersOf(entries[..|entries| - 1], game) + (if e.game == game then [e.character] else [])
  }

  /**
   * Starting from an empty map, each game that has an entry lists exactly its characters in
   * file order, duplicates kept; games without entries are absent.
   */
  lemma {:induction false} RosterFromEmpty(entries: seq<GameEntry>, game: string)
    ensures game in Roster(map[], entries) <==> exists i :: 0 <= i < |entries| && entries[i].game == game
    ensures game in Roster(map[], entries) ==> Roster(map[], entries)[game] == CharactersOf(entries, game)
  {
    if |entries| > 0 {
      var prefix := entries[..|entries| - 1];
      RosterFromEmpty(prefix, game);
      assert forall i :: 0 <= i < |prefix| ==> prefix[i] == entries[i];
      if game !in Roster(map[], prefix) {
        CharactersOfAbsent(prefix, game);
      }
    }
  }

  lemma {:induction false} CharactersOfAbsent(entries: seq<GameEntry>, game: string)
    requires forall i :: 0 <= i < |entries| ==> entries[i].game != game
    ensures CharactersOf(entries, game) == []
  {
    if |entries| > 0 {
      CharactersOfAbsent(entries[..|entries| - 1], game);
    }
  }

  /** The character texts keyed by lower-cased character name. */
  function CharacterPairs(entries: seq<GameEntry>): (r: seq<(string, string)>)
    ensures |r| == |entries|
    ensures forall i :: 0 <= i < |entries| ==> r[i] == (Lower(entries[i].character), entries[i].text)
  {
    seq(|entries|, i requires 0 <= i < |entries| => (Lower(entries[i].character), entries[i].text))
  }

  /**
   * The personality a folder contributes: none without `base.txt`; otherwise its base, the
   * variants of `variants.json` (all of its keys, verbatim) and the intro it names or the
   * default one; no variants and no intro when the file is missing.
   */
  function CustomEntry(folder: CustomFolder): (r: Option<CustomPersonality>)
    ensures r.Some? <==> folder.base.Some?
    ensures r.Some? ==> r.value.name == folder.name && r.value.base == folder.base.value
    ensures r.Some? && r.value.variantIntro.None? ==> r.value.variants == map[]
  {
    if folder.base.None? then None
    else if folder.variantsJson.None? then Some(CustomPersonality(folder.name, folder.base.value, None, map[]))
    else
      var variants := folder.variantsJson.value;
      var intro := if VariantIntroKey in variants then variants[VariantIntroKey] else DefaultVariantIntro;
      Some(CustomPersonality(folder.name, folder.base.value, Some(intro), variants))
  }

  /**
   * The source as written: `variant_intro` is declared `str`, yet a folder without
   * `variants.json` passes `None` for it, which pydantic rejects.
   */
  function CustomEntryAsWritten(folder: CustomFolder): (r: Result<Option<CustomPersonality>, Error>)
    ensures r.Ok? ==> r.value == CustomEntry(folder)
  {
    if folder.base.Some? && folder.variantsJson.None? then Err(ValidationError) else Ok(CustomEntry(folder))
  }

  /** A folder with only `base.txt` makes the source's constructor fail, while it loads in the corrected model. */
  lemma BaseOnlyFolderRejectedAsWritten(name: string, base: string)
    ensures CustomEntryAsWritten(CustomFolder(name, Some(base), None)) == Err(ValidationError)
    ensures CustomEntry(CustomFolder(name, Some(base), None)) == Some(CustomPersonality(name, base, None, map[]))
  {
  }

  /** The custom personalities keyed by lower-cased folder name, folders without a base skipped. */
  function CustomPairs(folders: seq<CustomFolder>): seq<(string, CustomPersonality)>
  {
    if |folders| == 0 then []
    else
      var last := folders[|folders| - 1];
      var entry := CustomEntry(last);
      CustomPairs(folders[..|folders| - 1]) + (if entry.Some? then [(Lower(last.name), entry.value)] else [])
  }

  /** Every custom pair comes from a folder with a base, keyed by its lower-cased name. */
  lemma {:induction false} CustomPairsSound(folders: seq<CustomFolder>)
    ensures forall i :: 0 <= i < |CustomPairs(folders)| ==>
      Lower(CustomPairs(folders)[i].0) == CustomPairs(folders)[i].0
      && (CustomPairs(folders)[i].1.variantIntro.None? ==> CustomPairs(folders)[i].1.variants == map[])
  {
    if |folders| > 0 {
      CustomPairsSound(folders[..|folders| - 1]);
      LowerIdempotent(folders[|folders| - 1].name);
    }
  }

  /** A folder the code as written rejects: a base text but no `variants.json`. */
  predicate BaseOnly(folder: CustomFolder)
  {
    folder.base.Some? && folder.variantsJson.None?
  }

  /** No folder of `folders` is base-only. */
  predicate NoneBaseOnly(folders: seq<CustomFolder>)
  {
    forall i :: 0 <= i < |folders| ==> !BaseOnly(folders[i])
  }

  /** One more folder that is not base-only keeps the prefix free of base-only folders. */
  lemma NoneBaseOnlyStep(folders: seq<CustomFolder>, i: nat)
    requires i < |folders|
    requires NoneBaseOnly(folders[..i])
    requires !BaseOnly(folders[i])
    ensures NoneBaseOnly(folders[..i + 1])
  {
    assert forall j :: 0 <= j < i ==> folders[..i + 1][j] == folders[..i][j];
  }

  /**
   * The custom folders as the code as written loads them: the first base-only folder raises
   * the validation error; otherwise the stored pairs are those of the corrected entry.
   */
  function CustomPairsAsWritten(folders: seq<CustomFolder>): (r: Result<seq<(string, CustomPersonality)>, Error>)
    ensures r.Ok? ==> r.value == CustomPairs(folders)
    ensures r.Err? ==> r.error == ValidationError
  {
    if |folders| == 0 then Ok([])
    else
      var done := CustomPairsAsWritten(folders[..|folders| - 1]);
      var last := folders[|folders| - 1];
      if done.Err? then done
      else
        match CustomEntryAsWritten(last)
        case Err(e) => Err(e)
        case Ok(entry) => Ok(done.value + (if entry.Some? then [(Lower(last.name), entry.value)] else []))
  }

  /** Loading as written fails exactly when some folder is base-only. */
  lemma {:induction false} CustomPairsAsWrittenFails(folders: seq<CustomFolder>)
    ensures CustomPairsAsWritten(folders).Err? <==> exists i :: 0 <= i < |folders| && BaseOnly(folders[i])
  {
    if |folders| > 0 {
      var n := |folders| - 1;
      var init := folders[..n];
      CustomPairsAsWrittenFails(init);
      if exists i :: 0 <= i < |init| && BaseOnly(init[i]) {
        var i :| 0 <= i < |init| && BaseOnly(init[i]);
        assert BaseOnly(folders[i]);
      } else if !BaseOnly(folders[n]) {
        forall i | 0 <= i < |folders|
          ensures !BaseOnly(folders[i])
        {
          if i < n {
            assert folders[i] == init[i];
          }
        }
      }
    }
  }

  /** Custom personalities are stored under lower-cased names, and one without an intro has no variants. */
  ghost predicate ValidCustom(m: map<string, CustomPersonality>)
  {
    && LowerKeys(m)
    && forall k :: k in m && m[k].variantIntro.None? ==> m[k].variants == map[]
  }

  /** One more folder: a folder with a base is stored under its lower-cased name; one without changes nothing. */
  lemma CustomStep(before: map<string, CustomPersonality>, folders: seq<CustomFolder>, i: nat, current: map<string, CustomPersonality>)
    requires i < |folders|
    requires current == before + Keyed(CustomPairs(folders[..i]))
    requires ValidCustom(current)
    ensures folders[i].base.None? ==> current == before + Keyed(CustomPairs(folders[..i + 1]))
    ensures folders[i].base.Some? ==>
      var next := current[Lower(folders[i].name) := CustomEntry(folders[i]).value];
      next == before + Keyed(CustomPairs(folders[..i + 1])) && ValidCustom(next)
  {
    var folder := folders[i];
    CustomPairsStep(folders, i);
    if folder.base.Some? {
      UnionThenStore(before, CustomPairs(folders[..i]), Lower(folder.name), CustomEntry(folder).value);
      StoreKeepsValidCustom(current, folder);
    } else {
      assert CustomPairs(folders[..i]) + [] == CustomPairs(folders[..i]);
    }
  }

  lemma CustomPairsStep(folders: seq<CustomFolder>, i: nat)
    requires i < |folders|
    ensures CustomPairs(folders[..i + 1]) == CustomPairs(folders[..i])
      + (if folders[i].base.Some? then [(Lower(folders[i].name), CustomEntry(folders[i]).value)] else [])
  {
    assert folders[..i + 1][..i] == folders[..i];
  }

  lemma StoreKeepsValidCustom(m: map<string, CustomPersonality>, folder: CustomFolder)
    requires ValidCustom(m) && folder.base.Some?
    ensures ValidCustom(m[Lower(folder.name) := CustomEntry(folder).value])
  {
    LowerIdempotent(folder.name);
  }

  /** `str()` of the intro inside the f-string: `None` prints as "None". */
  function IntroText(intro: Option<string>): string
  {
    if intro.Some? then intro.value else "None"
  }

  /** `ContextBuilder`. */
  class ContextBuilder {
    var availableGames: seq<string>
    var gamePersonalitiesMap: map<string, seq<string>>
    var availableVideoGamePersonalities: map<string, string>
    var availableCustomPersonalities: map<string, CustomPersonality>
    var rulesets: map<string, string>
    var agents: map<string, string>

    /** Keys are stored lower-cased; a personality without an intro has no variants. */
    ghost predicate Valid()
      reads this
    {
      && LowerKeys(availableVideoGamePersonalities)
      && ValidCustom(availableCustomPersonalities)
      && LowerKeys(rulesets)
      && LowerKeys(agents)
    }

    /** The dictionaries before loading. */
    constructor Empty()
      ensures Valid()
      ensures availableGames == [] && gamePersonalitiesMap == map[] && availableVideoGamePersonalities == map[]
      ensures availableCustomPersonalities == map[] && rulesets == map[] && agents == map[]
    {
      availableGames := [];
      gamePersonalitiesMap := map[];
      availableVideoGamePersonalities := map[];
      availableCustomPersonalities := map[];
      rulesets := map[];
      agents := map[];
    }

    /** `_load_rulesets`: each file's text under its lower-cased stem. */
    method LoadRulesets(files: seq<SourceFile>)
      requires LowerKeys(rulesets)
      modifies this`rulesets
      ensures LowerKeys(rulesets)
      ensures rulesets == old(rulesets) + Keyed(LowerPairs(files))
    {
      var i := 0;
      while i < |files|
        invariant 0 <= i <= |files|
        invariant LowerKeys(rulesets)
        invariant rulesets == old(rulesets) + Keyed(LowerPairs(files[..i]))
      {
        assert LowerPairs(files[..i + 1]) == LowerPairs(files[..i]) + [(Lower(files[i].stem), files[i].text)];
        UnionThenStore(old(rulesets), LowerPairs(files[..i]), Lower(files[i].stem), files[i].text);
        LowerIdempotent(files[i].stem);
        rulesets := rulesets[Lower(files[i].stem) := files[i].text];
        i := i + 1;
      }
      assert files[..i] == files;
    }

    /** `_load_agents`: each file's text under its lower-cased stem. */
    method LoadAgents(files: seq<SourceFile>)
      requires LowerKeys(agents)
      modifies this`agents
      ensures LowerKeys(agents)
      ensures agents == old(agents) + Keyed(LowerPairs(files))
    {
      var i := 0;
      while i < |files|
        invariant 0 <= i <= |files|
        invariant LowerKeys(agents)
        invariant agents == old(agents) + Keyed(LowerPairs(files[..i]))
      {
        assert LowerPairs(files[..i + 1]) == LowerPairs(files[..i]) + [(Lower(files[i].stem), files[i].text)];
        UnionThenStore(old(agents), LowerPairs(files[..i]), Lower(files[i].stem), files[i].text);
        LowerIdempotent(files[i].stem);
        agents := agents[Lower(files[i].stem) := files[i].text];
        i := i + 1;
      }
      assert files[..i] == files;
    }

    /**
     * `_load_video_game_personalities`: each stem is split on "_" into game and character;
     * the upper-cased game gets the character appended to its list, and the text is stored
     * under the lower-cased character. A stem that does not split into exactly two pieces
     * raises; the list of available games is never filled.
     */
    method LoadVideoGamePersonalities(files: seq<SourceFile>) returns (outcome: Outcome<Error>)
      requires LowerKeys(availableVideoGamePersonalities)
      modifies this`gamePersonalitiesMap, this`availableVideoGamePersonalities
      ensures LowerKeys(availableVideoGamePersonalities)
      ensures ParseGameFiles(files).Err? ==> outcome == Fail(ParseGameFiles(files).error)
      ensures ParseGameFiles(files).Ok? ==>
        && outcome == Pass
        && gamePersonalitiesMap == Roster(old(gamePersonalitiesMap), ParseGameFiles(files).value)
        && availableVideoGamePersonalities == old(availableVideoGamePersonalities) + Keyed(CharacterPairs(ParseGameFiles(files).value))
    {
      var entries: seq<GameEntry> := [];
      var i := 0;
      while i < |files|
        invariant 0 <= i <= |files|
        invariant ParseGameFiles(files[..i]) == Ok(entries)
        invariant LowerKeys(availableVideoGamePersonalities)
        invariant gamePersonalitiesMap == Roster(old(gamePersonalitiesMap), entries)
        invariant availableVideoGamePersonalities == old(availableVideoGamePersonalities) + Keyed(CharacterPairs(entries))
      {
        var parsed := ParseGameStem(files[i].stem);
        ParseOneMore(files, i, entries);
        if parsed.Err? {
          PrefixFailureFails(files, i + 1);
          return Fail(parsed.error);
        }
        var entry := GameEntry(parsed.value.0, parsed.value.1, files[i].text);
        RosterOneMore(old(gamePersonalitiesMap), entries, entry);
        assert CharacterPairs(entries + [entry]) == CharacterPairs(entries) + [(Lower(entry.character), entry.text)];
        UnionThenStore(old(availableVideoGamePersonalities), CharacterPairs(entries), Lower(entry.character), entry.text);
        AddGameCharacter(entry);
        entries := entries + [entry];
        i := i + 1;
      }
      assert files[..i] == files;
      return Pass;
    }

    /** One video-game file: the character joins its game's list, and its text is stored under its lower-cased name. */
    method AddGameCharacter(entry: GameEntry)
      requires LowerKeys(availableVideoGamePersonalities)
      modifies this`gamePersonalitiesMap, this`availableVideoGamePersonalities
      ensures LowerKeys(availableVideoGamePersonalities)
      ensures var listed := if entry.game in old(gamePersonalitiesMap) then old(gamePersonalitiesMap)[entry.game] else [];
        gamePersonalitiesMap == old(gamePersonalitiesMap)[entry.game := listed + [entry.character]]
      ensures availableVideoGamePersonalities == old(availableVideoGamePersonalities)[Lower(entry.character) := entry.text]
    {
      if entry.game !in gamePersonalitiesMap {
        gamePersonalitiesMap := gamePersonalitiesMap[entry.game := []];
      }
      gamePersonalitiesMap := gamePersonalitiesMap[entry.game := gamePersonalitiesMap[entry.game] + [entry.character]];
      LowerIdempotent(entry.character);
      availableVideoGamePersonalities := availableVideoGamePersonalities[Lower(entry.character) := entry.text];
    }

    /** `_load_custom_personalities`: each folder with a base, under its lower-cased name. */
    method LoadCustomPersonalities(folders: seq<CustomFolder>)
      requires ValidCustom(availableCustomPersonalities)
      modifies this`availableCustomPersonalities
      ensures ValidCustom(availableCustomPersonalities)
      ensures availableCustomPersonalities == old(availableCustomPersonalities) + Keyed(CustomPairs(folders))
    {
      var i := 0;
      while i < |folders|
        invariant 0 <= i <= |folders|
        invariant ValidCustom(availableCustomPersonalities)
        invariant availableCustomPersonalities == old(availableCustomPersonalities) + Keyed(CustomPairs(folders[..i]))
      {
        var folder := folders[i];
        CustomStep(old(availableCustomPersonalities), folders, i, availableCustomPersonalities);
        if folder.base.Some? {
          var basePersonality := folder.base.value;
          var personalityVariants: map<string, string>;
          var variantIntro: Option<string>;
          if folder.variantsJson.Some? {
            personalityVariants := folder.variantsJson.value;
            variantIntro := Some(if VariantIntroKey in personalityVariants then personalityVariants[VariantIntroKey] else DefaultVariantIntro);
          } else {
            personalityVariants := map[];
            variantIntro := None;
          }
          var personality := CustomPersonality(folder.name, basePersonality, variantIntro, personalityVariants);
          assert Some(personality) == CustomEntry(folder);
          availableCustomPersonalities := availableCustomPersonalities[Lower(folder.name) := personality];
        }
        i := i + 1;
      }
      assert folders[..i] == folders;
    }

    /** `ContextBuilder()`: the four loaders over the folders' contents, in the source's order. */
    static method Create(rulesetFiles: seq<SourceFile>, gameFiles: seq<SourceFile>, customFolders: seq<CustomFolder>, agentFiles: seq<SourceFile>)
      returns (r: Result<ContextBuilder, Error>)
      ensures ParseGameFiles(gameFiles).Err? ==> r == Err(ParseGameFiles(gameFiles).error)
      ensures ParseGameFiles(gameFiles).Ok? ==> r.Ok? && fresh(r.value) && r.value.Valid()
      ensures r.Ok? ==>
        && r.value.availableGames == []
        && r.value.rulesets == Keyed(LowerPairs(rulesetFiles))
        && r.value.gamePersonalitiesMap == Roster(map[], ParseGameFiles(gameFiles).value)
        && r.value.availableVideoGamePersonalities == Keyed(CharacterPairs(ParseGameFiles(gameFiles).value))
        && r.value.availableCustomPersonalities == Keyed(CustomPairs(customFolders))
        && r.value.agents == Keyed(LowerPairs(agentFiles))
    {
      var builder := new ContextBuilder.Empty();
      builder.LoadRulesets(rulesetFiles);
      EmptyUnion(Keyed(LowerPairs(rulesetFiles)));
      assert builder.rulesets == Keyed(LowerPairs(rulesetFiles));
      var outcome := builder.LoadVideoGamePersonalities(gameFiles);
      if outcome.Fail? {
        return Err(outcome.error);
      }
      ghost var entries := ParseGameFiles(gameFiles).value;
      EmptyUnion(Keyed(CharacterPairs(entries)));
      assert builder.availableVideoGamePersonalities == Keyed(CharacterPairs(entries));
      builder.LoadCustomPersonalities(customFolders);
      EmptyUnion(Keyed(CustomPairs(customFolders)));
      assert builder.availableCustomPersonalities == Keyed(CustomPairs(customFolders));
      builder.LoadAgents(agentFiles);
      EmptyUnion(Keyed(LowerPairs(agentFiles)));
      return Ok(builder);
    }

    /**
     * `_load_custom_personalities` as written: the first base-only folder raises the
     * validation error; the folders before it have been stored by then.
     */
    method LoadCustomPersonalitiesAsWritten(folders: seq<CustomFolder>) returns (outcome: Outcome<Error>)
      requires ValidCustom(availableCustomPersonalities)
      modifies this`availableCustomPersonalities
      ensures (exists i :: 0 <= i < |folders| && BaseOnly(folders[i])) ==> outcome == Fail(ValidationError)
      ensures (forall i :: 0 <= i < |folders| ==> !BaseOnly(folders[i])) ==>
        && outcome == Pass
        && ValidCustom(availableCustomPersonalities)
        && availableCustomPersonalities == old(availableCustomPersonalities) + Keyed(CustomPairs(folders))
    {
      var i := 0;
      while i < |folders|
        invariant 0 <= i <= |folders|
        invariant NoneBaseOnly(folders[..i])
        invariant ValidCustom(availableCustomPersonalities)
        invariant availableCustomPersonalities == old(availableCustomPersonalities) + Keyed(CustomPairs(folders[..i]))
      {
        var folder := folders[i];
        CustomStep(old(availableCustomPersonalities), folders, i, availableCustomPersonalities);
        if folder.base.Some? {
          var basePersonality := folder.base.value;
          var personalityVariants: map<string, string>;
          var variantIntro: Option<string>;
          if folder.variantsJson.Some? {
            personalityVariants := folder.variantsJson.value;
            variantIntro := Some(if VariantIntroKey in personalityVariants then personalityVariants[VariantIntroKey] else DefaultVariantIntro);
          } else {
            personalityVariants := map[];
            variantIntro := None;
          }
          // `variant_intro` is declared `str`: pydantic rejects `None`.
          if variantIntro.None? {
            assert BaseOnly(folders[i]);
            return Fail(ValidationError);
          }
          var personality := CustomPersonality(folder.name, basePersonality, variantIntro, personalityVariants);
          assert Some(personality) == CustomEntry(folder);
          availableCustomPersonalities := availableCustomPersonalities[Lower(folder.name) := personality];
        }
        NoneBaseOnlyStep(folders, i);
        i := i + 1;
      }
      assert folders[..i] == folders;
      return Pass;
    }

    /**
     * The constructor as written: like `Create`, except that once the video-game files have
     * parsed, a base-only custom folder makes construction raise the validation error.
     */
    static method CreateAsWritten(rulesetFiles: seq<SourceFile>, gameFiles: seq<SourceFile>, customFolders: seq<CustomFolder>,
                                  agentFiles: seq<SourceFile>)
      returns (r: Result<ContextBuilder, Error>)
      ensures ParseGameFiles(gameFiles).Err? ==> r == Err(ParseGameFiles(gameFiles).error)
      ensures ParseGameFiles(gameFiles).Ok? && (exists i :: 0 <= i < |customFolders| && BaseOnly(customFolders[i])) ==>
        r == Err(ValidationError)
      ensures ParseGameFiles(gameFiles).Ok? && NoneBaseOnly(customFolders) ==> r.Ok?
      ensures r.Ok? ==>
        && fresh(r.value) && r.value.Valid()
        && r.value.availableGames == []
        && r.value.rulesets == Keyed(LowerPairs(rulesetFiles))
        && r.value.gamePersonalitiesMap == Roster(map[], ParseGameFiles(gameFiles).value)
        && r.value.availableVideoGamePersonalities == Keyed(CharacterPairs(ParseGameFiles(gameFiles).value))
        && r.value.availableCustomPersonalities == Keyed(CustomPairs(customFolders))
        && r.value.agents == Keyed(LowerPairs(agentFiles))
    {
      var builder := new ContextBuilder.Empty();
      builder.LoadRulesets(rulesetFiles);
      EmptyUnion(Keyed(LowerPairs(rulesetFiles)));
      assert builder.rulesets == Keyed(LowerPairs(rulesetFiles));
      var outcome := builder.LoadVideoGamePersonalities(gameFiles);
      if outcome.Fail? {
        return Err(outcome.error);
      }
      ghost var entries := ParseGameFiles(gameFiles).value;
      EmptyUnion(Keyed(CharacterPairs(entries)));
      assert builder.availableVideoGamePersonalities == Keyed(CharacterPairs(entries));
      outcome := builder.LoadCustomPersonalitiesAsWritten(customFolders);
      if outcome.Fail? {
        return Err(outcome.error);
      }
      EmptyUnion(Keyed(CustomPairs(customFolders)));
      assert builder.availableCustomPersonalities == Keyed(CustomPairs(customFolders));
      builder.LoadAgents(agentFiles);
      EmptyUnion(Keyed(LowerPairs(agentFiles)));
      return Ok(builder);
    }

    /** `_load_video_game_personality`. */
    function LoadVideoGamePersonality(characterName: Option<string>): Option<string>
      reads this
    {
      if characterName.None? then None else Get(availableVideoGamePersonalities, Lower(characterName.value))
    }

    /**
     * `_load_custom_personality`: the base text; with a known variant, the base, the intro
     * and the variant text on three lines.
     */
    function LoadCustomPersonality(characterName: Option<string>, variant: Option<string>): Option<string>
      reads this
    {
      if characterName.None? then None
      else
        var custom := Get(availableCustomPersonalities, Lower(characterName.value));
        if custom.None? then None
        else
          var personality := custom.value.base;
          if variant.None? then Some(personality)
          else
            var personalityVariant := Get(custom.value.variants, Lower(variant.value));
            if personalityVariant.None? then Some(personality)
            else Some(personality + "\n" + IntroText(custom.value.variantIntro) + "\n" + personalityVariant.value)
    }

    /** `_load_ruleset`. */
    function LoadRuleset(ruleset: string): Option<string>
      reads this
    {
      Get(rulesets, Lower(ruleset))
    }

    /**
     * `load_personality`: a video-game personality as it is; otherwise the custom one, with
     * the ruleset after a blank line when a ruleset is asked for and exists.
     */
    function LoadPersonality(characterName: Option<string>, variant: Option<string>, ruleset: Option<string>): Option<string>
      reads this
    {
      var videoGame := LoadVideoGamePersonality(characterName);
      if videoGame.Some? then videoGame
      else
        var personality := LoadCustomPersonality(characterName, variant);
        if personality.None? || ruleset.None? then personality
        else
          var rules := LoadRuleset(ruleset.value);
          if rules.None? then personality else Some(personality.value + "\n\n" + rules.value)
    }

    /** `load_agent`. */
    function LoadAgent(agentName: string): Option<string>
      reads this
    {
      Get(agents, Lower(agentName))
    }

    /**
     * The precedence of `load_personality`: a video-game personality wins and is returned
     * as it is; a missing or unknown name gives nothing; a custom personality gets the
     * ruleset only when a ruleset is asked for and exists.
     */
    lemma PersonalityPrecedence(characterName: Option<string>, variant: Option<string>, ruleset: Option<string>)
      ensures characterName.None? ==> LoadPersonality(characterName, variant, ruleset) == None
      ensures LoadVideoGamePersonality(characterName).Some? ==>
        LoadPersonality(characterName, variant, ruleset) == LoadVideoGamePersonality(characterName)
      ensures LoadVideoGamePersonality(characterName).None? && LoadCustomPersonality(characterName, variant).None? ==>
        LoadPersonality(characterName, variant, ruleset) == None
      ensures LoadVideoGamePersonality(characterName).None? && LoadCustomPersonality(characterName, variant).Some? ==>
        LoadPersonality(characterName, variant, ruleset) ==
          if ruleset.Some? && LoadRuleset(ruleset.value).Some?
          then Some(LoadCustomPersonality(characterName, variant).value + "\n\n" + LoadRuleset(ruleset.value).value)
          else LoadCustomPersonality(characterName, variant)
    {
    }

    /** Names, variants and rulesets are matched ignoring case. */
    lemma PersonalityIgnoresCase(name1: string, name2: string, variant1: string, variant2: string, ruleset1: string, ruleset2: string)
      requires Lower(name1) == Lower(name2) && Lower(variant1) == Lower(variant2) && Lower(ruleset1) == Lower(ruleset2)
      ensures LoadPersonality(Some(name1), Some(variant1), Some(ruleset1)) == LoadPersonality(Some(name2), Some(variant2), Some(ruleset2))
      ensures LoadAgent(name1) == LoadAgent(name2)
    {
    }

    /**
     * The custom personality of a stored name: the base alone without a variant or with an
     * unknown one, the base, intro and variant on three lines with a known one.
     */
    lemma CustomVariantComposition(name: string, variant: Option<string>)
      requires Lower(name) in availableCustomPersonalities
      ensures var p := availableCustomPersonalities[Lower(name)];
        LoadCustomPersonality(Some(name), variant) ==
          if variant.Some? && Lower(variant.value) in p.variants
          then Some(p.base + "\n" + IntroText(p.variantIntro) + "\n" + p.variants[Lower(variant.value)])
          else Some(p.base)
    {
    }

    /**
     * Variant keys are stored verbatim but looked up lower-cased, so a personality whose
     * only variant key holds an upper-case letter always gives its base text.
     */
    lemma UpperCaseVariantNeverSelected(name: string, key: string, variant: string)
      requires Lower(name) in availableCustomPersonalities
      requires availableCustomPersonalities[Lower(name)].variants.Keys == {key}
      requires exists i :: 0 <= i < |key| && IsUpperLetter(key[i])
      ensures LoadCustomPersonality(Some(name), Some(variant)) == Some(availableCustomPersonalities[Lower(name)].base)
    {
      UpperNeverLowered(key, variant);
    }

    /**
     * Every stored entry is found by its own key, because the keys are stored lower-cased;
     * a custom personality without an intro has no variants, so every variant gives its base.
     */
    lemma StoredEntriesAreFound(key: string, variant: Option<string>)
      requires Valid()
      ensures key in rulesets ==> LoadRuleset(key) == Some(rulesets[key])
      ensures key in agents ==> LoadAgent(key) == Some(agents[key])
      ensures key in availableVideoGamePersonalities ==>
        LoadVideoGamePersonality(Some(key)) == Some(availableVideoGamePersonalities[key])
      ensures key in availableCustomPersonalities && availableCustomPersonalities[key].variantIntro.None? ==>
        LoadCustomPersonality(Some(key), variant) == Some(availableCustomPersonalities[key].base)
    {
    }
  }

  /** After loading, a ruleset lookup finds the text of the last ruleset file whose stem matches ignoring case. */
  lemma LoadedRulesetIsLastMatchingFile(b: ContextBuilder, rulesetFiles: seq<SourceFile>, ruleset: string)
    requires b.rulesets == Keyed(LowerPairs(rulesetFiles))
    ensures b.LoadRuleset(ruleset) == LastMatch(LowerPairs(rulesetFiles), Lower(ruleset))
  {
    KeyedIsLastMatch(LowerPairs(rulesetFiles), Lower(ruleset));
  }

  /**
   * After loading, a character name that matches a video-game file's character ignoring
   * case gives that file's text (the last such file), whatever variant or ruleset is asked for.
   */
  lemma LoadedGameCharacterWins(b: ContextBuilder, entries: seq<GameEntry>, name: string, variant: Option<string>, ruleset: Option<string>)
    requires b.availableVideoGamePersonalities == Keyed(CharacterPairs(entries))
    ensures LastMatch(CharacterPairs(entries), Lower(name)).Some? ==>
      b.LoadPersonality(Some(name), variant, ruleset) == LastMatch(CharacterPairs(entries), Lower(name))
  {
    KeyedIsLastMatch(CharacterPairs(entries), Lower(name));
  }

  /** With `variants.json`, its intro key is itself a selectable variant: the intro then appears twice. */
  lemma IntroKeyIsAVariant(b: ContextBuilder, name: string, json: map<string, string>, base: string)
    requires Lower(name) in b.availableCustomPersonalities
    requires b.availableCustomPersonalities[Lower(name)] == CustomEntry(CustomFolder(name, Some(base), Some(json))).value
    requires VariantIntroKey in json
    ensures b.LoadCustomPersonality(Some(name), Some(VariantIntroKey))
         == Some(base + "\n" + json[VariantIntroKey] + "\n" + json[VariantIntroKey])
  {
    assert Lower(VariantIntroKey) == VariantIntroKey;
  }
}
