/** Field resolution: the first-match keyword lookup over the recognised
    entities and the fixed table that maps it onto the five fields of the
    structuring input. The lookup is a best-effort heuristic, and the model
    keeps its exact behaviour, ambiguities included. */
module EntityLookup {
  import opened Wrappers
  import opened Schemas

  // ---------------------------------------------------------------------
  // Lower-casing and substring search
  // ---------------------------------------------------------------------

  /** Lower-cases one character (ASCII letters only; every other character
      is left as it is). */
  function LowerChar(c: char): char
  {
    if 'A' <= c <= 'Z' then (c as int - 'A' as int + 'a' as int) as char else c
  }

  /** Lower-cases a label character by character. */
  function Lower(s: string): (r: string)
  {
    seq(|s|, i requires 0 <= i < |s| => LowerChar(s[i]))
  }

  /** `sub` occurs in `s` starting at position `i`. */
  predicate MatchesAt(s: string, sub: string, i: int)
  {
    0 <= i && i + |sub| <= |s| && s[i..i + |sub|] == sub
  }

  /** String `includes`: `sub` occurs somewhere in `s` (the empty string
      occurs in every string). */
  predicate Includes(s: string, sub: string)
  {
    exists i :: 0 <= i <= |s| - |sub| && MatchesAt(s, sub, i)
  }

  /** The edge cases of `includes`: the empty string occurs in every string,
      and a string longer than `s` never occurs in it. */
  lemma IncludesEdgeCases(s: string, sub: string)
    ensures Includes(s, [])
    ensures |sub| > |s| ==> !Includes(s, sub)
  {
    assert MatchesAt(s, [], 0);
  }

  // ---------------------------------------------------------------------
  // Keyword matching and the first-match search
  // ---------------------------------------------------------------------

  /** `some` over the keywords: at least one keyword occurs in `text`. */
  function AnyKeyword(text: string, keywords: seq<string>): (b: bool)
    ensures b <==> exists k :: 0 <= k < |keywords| && Includes(text, keywords[k])
  {
    if |keywords| == 0 then
      false
    else if Includes(text, keywords[0]) then
      true
    else
      var rest := AnyKeyword(text, keywords[1..]);
      assert forall k :: 1 <= k < |keywords| ==> keywords[k] == keywords[1..][k - 1];
      rest
  }

  /** The entity's label, lower-cased, contains one of the keywords. The
      keywords themselves are not lower-cased. */
  predicate LabelMatches(e: Entity, keywords: seq<string>)
  {
    AnyKeyword(Lower(e.labelText), keywords)
  }

  /** Entity `i` matches and no entity before it does. */
  predicate FirstMatchAt(entities: seq<Entity>, keywords: seq<string>, i: int)
  {
    0 <= i < |entities| && LabelMatches(entities[i], keywords)
    && forall j :: 0 <= j < i ==> !LabelMatches(entities[j], keywords)
  }

  /** `findEntityValue`: the value of the first entity, in list order, whose
      lower-cased label contains any of the keywords; absent when none does
      (see FindEntityValueIsFirstMatch). */
  function FindEntityValue(entities: seq<Entity>, keywords: seq<string>): Option<string>
    decreases |entities|
  {
    if |entities| == 0 then
      None
    else if LabelMatches(entities[0], keywords) then
      Some(entities[0].value)
    else
      FindEntityValue(entities[1..], keywords)
  }

  /** The lookup is the first-match search: absent exactly when no entity
      matches, and otherwise the value of the first matching entity. */
  lemma {:induction false} FindEntityValueIsFirstMatch(entities: seq<Entity>, keywords: seq<string>)
    ensures var r := FindEntityValue(entities, keywords);
      r.None? <==> forall i :: 0 <= i < |entities| ==> !LabelMatches(entities[i], keywords)
    ensures var r := FindEntityValue(entities, keywords);
      r.Some? ==> exists i :: FirstMatchAt(entities, keywords, i) && r.value == entities[i].value
    ensures forall i :: FirstMatchAt(entities, keywords, i) ==>
      FindEntityValue(entities, keywords) == Some(entities[i].value)
    decreases |entities|
  {
    if |entities| == 0 {
    } else if LabelMatches(entities[0], keywords) {
      assert FirstMatchAt(entities, keywords, 0);
    } else {
      var tail := entities[1..];
      FindEntityValueIsFirstMatch(tail, keywords);
      var rest := FindEntityValue(tail, keywords);
      assert FindEntityValue(entities, keywords) == rest;
      forall i | 1 <= i < |entities|
        ensures FirstMatchAt(entities, keywords, i) <==> FirstMatchAt(tail, keywords, i - 1)
      {
        FirstMatchShift(entities, keywords, i);
      }
      if rest.Some? {
        var i :| FirstMatchAt(tail, keywords, i) && rest.value == tail[i].value;
        assert FirstMatchAt(entities, keywords, i + 1);
      }
    }
  }

  /** Helper: when the head does not match, the first match of the list is
      the first match of its tail, one position later. */
  lemma FirstMatchShift(entities: seq<Entity>, keywords: seq<string>, i: int)
    requires 1 <= i < |entities| && !LabelMatches(entities[0], keywords)
    ensures FirstMatchAt(entities, keywords, i) <==> FirstMatchAt(entities[1..], keywords, i - 1)
  {
    var tail := entities[1..];
    assert entities[i] == tail[i - 1];
    if FirstMatchAt(tail, keywords, i - 1) {
      forall j | 0 <= j < i ensures !LabelMatches(entities[j], keywords) {
        if j > 0 { assert entities[j] == tail[j - 1]; }
      }
    }
  }

  /** Helper: the lookup on a list of two entities. */
  lemma FindInPair(e0: Entity, e1: Entity, keywords: seq<string>)
    ensures FindEntityValue([e0, e1], keywords) ==
      if LabelMatches(e0, keywords) then Some(e0.value)
      else if LabelMatches(e1, keywords) then Some(e1.value)
      else None
  {
    var es := [e0, e1];
    assert es[0] == e0 && es[1..] == [e1];
    assert [e1][0] == e1 && [e1][1..] == [];
    assert FindEntityValue([e1], keywords) == if LabelMatches(e1, keywords) then Some(e1.value) else None;
  }

  // ---------------------------------------------------------------------
  // The field table
  // ---------------------------------------------------------------------

  const HolderKeywords: seq<string> := ["patta holder", "name"]
  const VillageKeywords: seq<string> := ["village"]
  const CoordinateKeywords: seq<string> := ["coordinates", "gps"]
  const StatusKeywords: seq<string> := ["claim status", "status"]
  const OtherKeywords: seq<string> := ["other"]

  /** The structuring input built from the recognised entities: each field is
      looked up independently with its own keyword set. */
  function ResolveFields(entities: seq<Entity>): (r: StructureInput)
  {
    StructureInput(
      FindEntityValue(entities, HolderKeywords),
      FindEntityValue(entities, VillageKeywords),
      FindEntityValue(entities, CoordinateKeywords),
      FindEntityValue(entities, StatusKeywords),
      FindEntityValue(entities, OtherKeywords))
  }

  // ---------------------------------------------------------------------
  // Properties of the lookup
  // ---------------------------------------------------------------------

  /** A returned value belongs to an entity of the list whose lower-cased
      label contains one of the keywords. */
  lemma ValueComesFromMatchingEntity(entities: seq<Entity>, keywords: seq<string>)
    ensures FindEntityValue(entities, keywords).Some? ==>
      exists i, k :: 0 <= i < |entities| && 0 <= k < |keywords|
        && Includes(Lower(entities[i].labelText), keywords[k])
        && entities[i].value == FindEntityValue(entities, keywords).value
  {
    FindEntityValueIsFirstMatch(entities, keywords);
    var r := FindEntityValue(entities, keywords);
    if r.Some? {
      var i :| FirstMatchAt(entities, keywords, i) && r.value == entities[i].value;
      var k :| 0 <= k < |keywords| && Includes(Lower(entities[i].labelText), keywords[k]);
    }
  }

  /** Once a match has been found, entities appended after the list are
      ignored. */
  lemma {:induction false} LaterEntitiesIgnored(entities: seq<Entity>, more: seq<Entity>, keywords: seq<string>)
    requires FindEntityValue(entities, keywords).Some?
    ensures FindEntityValue(entities + more, keywords) == FindEntityValue(entities, keywords)
  {
    var all := entities + more;
    assert all[0] == entities[0];
    if !LabelMatches(entities[0], keywords) {
      assert all[1..] == entities[1..] + more;
      LaterEntitiesIgnored(entities[1..], more, keywords);
    }
  }

  /** Entities that match nothing are skipped: the search continues with
      whatever comes after them. */
  lemma {:induction false} UnmatchedEntitiesSkipped(entities: seq<Entity>, more: seq<Entity>, keywords: seq<string>)
    requires FindEntityValue(entities, keywords).None?
    ensures FindEntityValue(entities + more, keywords) == FindEntityValue(more, keywords)
  {
    if |entities| == 0 {
      assert entities + more == more;
    } else {
      var all := entities + more;
      assert all[0] == entities[0] && !LabelMatches(entities[0], keywords);
      assert all[1..] == entities[1..] + more;
      UnmatchedEntitiesSkipped(entities[1..], more, keywords);
    }
  }

  /** The search runs in entity order and tries every keyword on each entity:
      the order (and repetition) of the keywords does not matter, only which
      keywords there are. */
  lemma {:induction false} KeywordOrderIrrelevant(entities: seq<Entity>, k1: seq<string>, k2: seq<string>)
    requires forall k :: k in k1 <==> k in k2
    ensures FindEntityValue(entities, k1) == FindEntityValue(entities, k2)
  {
    if |entities| > 0 {
      SameKeywordsSameMatch(Lower(entities[0].labelText), k1, k2);
      SameKeywordsSameMatch(Lower(entities[0].labelText), k2, k1);
      KeywordOrderIrrelevant(entities[1..], k1, k2);
    }
  }

  /** Helper: a text that contains a keyword of `k1` contains one of `k2`
      when every keyword of `k1` is in `k2`. */
  lemma SameKeywordsSameMatch(text: string, k1: seq<string>, k2: seq<string>)
    requires forall k :: k in k1 ==> k in k2
    ensures AnyKeyword(text, k1) ==> AnyKeyword(text, k2)
  {
    if AnyKeyword(text, k1) {
      var k :| 0 <= k < |k1| && Includes(text, k1[k]);
      assert k1[k] in k2;
      var k' :| 0 <= k' < |k2| && k2[k'] == k1[k];
    }
  }

  /** Lower-casing a label twice changes nothing. */
  lemma LowerIdempotent(s: string)
    ensures Lower(Lower(s)) == Lower(s)
  {
  }

  /** Matching ignores the case of the label. */
  lemma LabelCaseIgnored(label': string, value: string, keywords: seq<string>)
    ensures LabelMatches(Entity(label', value), keywords) == LabelMatches(Entity(Lower(label'), value), keywords)
  {
    LowerIdempotent(label');
  }

  /** Because only the label is lower-cased, a keyword holding an upper-case
      letter can never match. */
  lemma UppercaseKeywordNeverMatches(label': string, keyword: string, p: int)
    requires 0 <= p < |keyword| && 'A' <= keyword[p] <= 'Z'
    ensures !Includes(Lower(label'), keyword)
  {
  }

  /** With no entities every field of the structuring input is absent. */
  lemma NoEntitiesAllFieldsAbsent()
    ensures ResolveFields([]) == StructureInput(None, None, None, None, None)
  {
  }

  /** A field is absent exactly when no entity label matches its keywords. */
  lemma FieldAbsentIffNoMatch(entities: seq<Entity>)
    ensures ResolveFields(entities).pattaHolderName.None? <==>
      forall i :: 0 <= i < |entities| ==> !LabelMatches(entities[i], HolderKeywords)
    ensures ResolveFields(entities).villageName.None? <==>
      forall i :: 0 <= i < |entities| ==> !LabelMatches(entities[i], VillageKeywords)
    ensures ResolveFields(entities).coordinates.None? <==>
      forall i :: 0 <= i < |entities| ==> !LabelMatches(entities[i], CoordinateKeywords)
    ensures ResolveFields(entities).claimStatus.None? <==>
      forall i :: 0 <= i < |entities| ==> !LabelMatches(entities[i], StatusKeywords)
    ensures ResolveFields(entities).otherInformation.None? <==>
      forall i :: 0 <= i < |entities| ==> !LabelMatches(entities[i], OtherKeywords)
  {
    FindEntityValueIsFirstMatch(entities, HolderKeywords);
    FindEntityValueIsFirstMatch(entities, VillageKeywords);
    FindEntityValueIsFirstMatch(entities, CoordinateKeywords);
    FindEntityValueIsFirstMatch(entities, StatusKeywords);
    FindEntityValueIsFirstMatch(entities, OtherKeywords);
  }

  /** Helper: a string that lacks one of the characters of `sub` does not
      contain `sub`. */
  lemma MissingCharNotIncluded(s: string, sub: string, p: nat)
    requires p < |sub| && sub[p] !in s
    ensures !Includes(s, sub)
  {
    forall i | 0 <= i <= |s| - |sub| ensures !MatchesAt(s, sub, i) {
      assert s[i..i + |sub|][p] == s[i + p];
    }
  }

  /** Helper: a string in which two adjacent characters of `sub` never
      appear side by side does not contain `sub`. */
  lemma AbsentPairNotIncluded(s: string, sub: string, p: nat)
    requires p + 1 < |sub|
    requires forall i :: 0 <= i < |s| - 1 ==> !(s[i] == sub[p] && s[i + 1] == sub[p + 1])
    ensures !Includes(s, sub)
  {
    forall i | 0 <= i <= |s| - |sub| ensures !MatchesAt(s, sub, i) {
      assert s[i..i + |sub|][p] == s[i + p] && s[i..i + |sub|][p + 1] == s[i + p + 1];
    }
  }

  /** Helper: a text without 'c', and without 'g' or 'p', contains no
      coordinate keyword. */
  lemma NoCoordinateKeyword(text: string)
    requires 'c' !in text && ('g' !in text || 'p' !in text)
    ensures !AnyKeyword(text, CoordinateKeywords)
  {
    MissingCharNotIncluded(text, "coordinates", 0);
    if 'g' !in text {
      MissingCharNotIncluded(text, "gps", 0);
    } else {
      MissingCharNotIncluded(text, "gps", 1);
    }
  }

  /** Helper: a text without 's' contains no status keyword. */
  lemma NoStatusKeyword(text: string)
    requires 's' !in text
    ensures !AnyKeyword(text, StatusKeywords)
  {
    MissingCharNotIncluded(text, "claim status", 6);
    MissingCharNotIncluded(text, "status", 0);
  }

  /** Helper: a text in which 'o' is never followed by 't' does not contain
      "other". */
  lemma NoOtherKeyword(text: string)
    requires forall i :: 0 <= i < |text| - 1 ==> !(text[i] == 'o' && text[i + 1] == 't')
    ensures !AnyKeyword(text, OtherKeywords)
  {
    AbsentPairNotIncluded(text, "other", 0);
  }

  /** Helper: lower-casing leaves a text without upper-case letters
      unchanged. */
  lemma LowerOfLowercase(s: string)
    requires forall i :: 0 <= i < |s| ==> !('A' <= s[i] <= 'Z')
    ensures Lower(s) == s
  {
  }

  /** Helper: in a two-entity list, the first entity fills the holder and
      village fields when it matches them, and fields neither entity matches
      stay absent. */
  lemma FirstOfPairFillsMatchedFields(e0: Entity, e1: Entity)
    requires LabelMatches(e0, HolderKeywords) && LabelMatches(e0, VillageKeywords)
    requires !LabelMatches(e0, CoordinateKeywords) && !LabelMatches(e1, CoordinateKeywords)
    requires !LabelMatches(e0, StatusKeywords) && !LabelMatches(e1, StatusKeywords)
    requires !LabelMatches(e0, OtherKeywords) && !LabelMatches(e1, OtherKeywords)
    ensures ResolveFields([e0, e1]) == StructureInput(Some(e0.value), Some(e0.value), None, None, None)
  {
    FindInPair(e0, e1, HolderKeywords);
    FindInPair(e0, e1, VillageKeywords);
    FindInPair(e0, e1, CoordinateKeywords);
    FindInPair(e0, e1, StatusKeywords);
    FindInPair(e0, e1, OtherKeywords);
  }

  // The two labels of the worked example below, one fact per lemma.

  lemma VillageNameIsLowercase(v: string)
    requires v == "village name"
    ensures Lower(v) == v
  {
    LowerOfLowercase(v);
  }

  lemma VillageNameMatchesHolderAndVillage(v: string)
    requires v == "village name"
    ensures AnyKeyword(v, HolderKeywords) && AnyKeyword(v, VillageKeywords)
  {
    assert v[8..12] == "name" && MatchesAt(v, "name", 8);
    assert v[0..7] == "village" && MatchesAt(v, "village", 0);
  }

  lemma VillageNameNoCoordinate(v: string)
    requires v == "village name"
    ensures !AnyKeyword(v, CoordinateKeywords)
  {
    NoCoordinateKeyword(v);
  }

  lemma VillageNameNoStatus(v: string)
    requires v == "village name"
    ensures !AnyKeyword(v, StatusKeywords)
  {
    NoStatusKeyword(v);
  }

  lemma VillageNameNoOther(v: string)
    requires v == "village name"
    ensures !AnyKeyword(v, OtherKeywords)
  {
    assert forall i :: 0 <= i < |v| ==> v[i] != 'o';
    NoOtherKeyword(v);
  }

  lemma HolderNameIsLowercase(h: string)
    requires h == "patta holder name"
    ensures Lower(h) == h
  {
    LowerOfLowercase(h);
  }

  lemma HolderNameNoOther(h: string)
    requires h == "patta holder name"
    ensures !AnyKeyword(h, OtherKeywords)
  {
    assert forall i :: 0 <= i < |h| && i != 7 ==> h[i] != 'o';
    NoOtherKeyword(h);
  }

  /** Entity order wins over keyword priority: a "village name" entity placed
      before a "patta holder name" entity fills the holder field too, through
      the keyword "name"; the other three fields stay absent. */
  lemma VillageLabelCapturesHolderName(v: string, h: string)
    requires v == "village name" && h == "patta holder name"
    ensures ResolveFields([Entity(v, "Rampur"), Entity(h, "Ram Singh")])
      == StructureInput(Some("Rampur"), Some("Rampur"), None, None, None)
  {
    VillageNameIsLowercase(v);
    VillageNameMatchesHolderAndVillage(v);
    VillageNameNoCoordinate(v);
    VillageNameNoStatus(v);
    VillageNameNoOther(v);
    HolderNameIsLowercase(h);
    NoCoordinateKeyword(h);
    NoStatusKeyword(h);
    HolderNameNoOther(h);
    FirstOfPairFillsMatchedFields(Entity(v, "Rampur"), Entity(h, "Ram Singh"));
  }
}
