/** The sheet-music directory and the roster sections of the src intranet
    (src/App.tsx): filteredScores and the per-voice member filter. */
module ScoreDirectory {
  import opened BandTypes
  import opened Sequences
  import opened Text
  import opened BandConstants

  /** The search text, lower-cased, occurs in the lower-cased title or, when the score
      has an author, in the lower-cased author. */
  predicate MatchesSearch(score: Score, search: string)
  {
    var q := ToLower(search);
    Contains(ToLower(score.title), q) ||
    (score.author.Some? && Contains(ToLower(score.author.value), q))
  }

  /** The keep-predicate of filteredScores for one selected voice. */
  predicate Listed(voice: Instrument, search: string, score: Score)
  {
    score.voice == voice && MatchesSearch(score, search)
  }

  /** filteredScores over a given score list: nothing while no voice is selected,
      otherwise the scores of that voice that match the search, in list order. */
  function FilterScores(scores: seq<Score>, selectedVoice: Option<Instrument>, search: string): seq<Score>
  {
    match selectedVoice
    case None => []
    case Some(voice) => Filter(scores, (s: Score) => Listed(voice, search, s))
  }

  /** With no voice selected the listing is empty; otherwise a score is listed exactly
      when it is in the list, has the selected voice and matches the search, and the
      listing keeps the order of the list. */
  lemma FilterScoresCharacterised(scores: seq<Score>, selectedVoice: Option<Instrument>, search: string, s: Score)
    ensures selectedVoice.None? ==> FilterScores(scores, selectedVoice, search) == []
    ensures selectedVoice.Some? ==>
              (s in FilterScores(scores, selectedVoice, search) <==>
               s in scores && s.voice == selectedVoice.value && MatchesSearch(s, search))
    ensures IsSubsequence(FilterScores(scores, selectedVoice, search), scores)
  {
    match selectedVoice
    case None =>
    case Some(voice) =>
      var keep := (x: Score) => Listed(voice, search, x);
      FilterMembers(scores, keep, s);
      FilterIsSubsequence(scores, keep);
  }

  /** The scores of one voice, whatever their title or author. */
  function VoiceScores(scores: seq<Score>, voice: Instrument): seq<Score>
  {
    Filter(scores, (s: Score) => s.voice == voice)
  }

  /** An empty search lists every score of the selected voice. */
  lemma EmptySearchListsWholeVoice(scores: seq<Score>, voice: Instrument)
    ensures FilterScores(scores, Some(voice), "") == VoiceScores(scores, voice)
  {
    assert ToLower("") == "";
    forall i | 0 <= i < |scores|
      ensures Listed(voice, "", scores[i]) <==> scores[i].voice == voice
    {
      ContainsEmpty(ToLower(scores[i].title));
    }
    FilterCongruent(scores, (s: Score) => Listed(voice, "", s), (s: Score) => s.voice == voice);
  }

  /** The search ignores case: upper- or lower-casing the search text beforehand lists
      the same scores. */
  lemma SearchIgnoresCase(scores: seq<Score>, selectedVoice: Option<Instrument>, search: string)
    ensures FilterScores(scores, selectedVoice, ToUpper(search)) == FilterScores(scores, selectedVoice, search)
    ensures FilterScores(scores, selectedVoice, ToLower(search)) == FilterScores(scores, selectedVoice, search)
  {
    CaseLaws(search);
    if selectedVoice.Some? {
      var voice := selectedVoice.value;
      FilterCongruent(scores, (s: Score) => Listed(voice, ToUpper(search), s), (s: Score) => Listed(voice, search, s));
      FilterCongruent(scores, (s: Score) => Listed(voice, ToLower(search), s), (s: Score) => Listed(voice, search, s));
    }
  }

  /** A score without an author can match the search only through its title. */
  lemma AuthorlessMatchesByTitle(score: Score, search: string)
    requires score.author.None?
    ensures MatchesSearch(score, search) <==> Contains(ToLower(score.title), ToLower(search))
  {
  }

  /** A search text longer than both title and author lists nothing. */
  lemma OverlongSearchMatchesNothing(score: Score, search: string)
    requires |search| > |score.title|
    requires score.author.Some? ==> |search| > |score.author.value|
    ensures !MatchesSearch(score, search)
  {
    if Contains(ToLower(score.title), ToLower(search)) {
      ContainsShorter(ToLower(score.title), ToLower(search));
    }
    if score.author.Some? && Contains(ToLower(score.author.value), ToLower(search)) {
      ContainsShorter(ToLower(score.author.value), ToLower(search));
    }
  }

  /** The members shown in one voice section: MOCK_MEMBERS.filter(m => m.instrument === voice). */
  function VoiceMembers(members: seq<Member>, voice: Instrument): seq<Member>
  {
    Filter(members, (m: Member) => m.instrument == voice)
  }

  /** A member is shown in a section exactly when it plays that voice. */
  lemma VoiceMembersCharacterised(members: seq<Member>, voice: Instrument, m: Member)
    ensures m in VoiceMembers(members, voice) <==> m in members && m.instrument == voice
    ensures IsSubsequence(VoiceMembers(members, voice), members)
  {
    FilterMembers(members, (x: Member) => x.instrument == voice, m);
    FilterIsSubsequence(members, (x: Member) => x.instrument == voice);
  }

  /** The sum of the section counters over a list of voices. */
  function SectionTotal(members: seq<Member>, voices: seq<Instrument>): nat
    decreases |voices|
  {
    if voices == [] then 0
    else |VoiceMembers(members, voices[0])| + SectionTotal(members, voices[1..])
  }

  lemma {:induction false} SectionTotalOfNobody(voices: seq<Instrument>)
    ensures SectionTotal([], voices) == 0
    decreases |voices|
  {
    if voices != [] {
      SectionTotalOfNobody(voices[1..]);
    }
  }

  /** Adding one member in front adds one to the total when its voice is listed once. */
  lemma {:induction false} SectionTotalCons(m: Member, rest: seq<Member>, voices: seq<Instrument>)
    requires Distinct(voices)
    ensures SectionTotal([m] + rest, voices) == SectionTotal(rest, voices) + (if m.instrument in voices then 1 else 0)
    decreases |voices|
  {
    if voices != [] {
      var keep := (x: Member) => x.instrument == voices[0];
      assert ([m] + rest)[1..] == rest;
      assert VoiceMembers([m] + rest, voices[0]) ==
             (if m.instrument == voices[0] then [m] else []) + VoiceMembers(rest, voices[0]);
      assert Distinct(voices[1..]);
      SectionTotalCons(m, rest, voices[1..]);
      assert m.instrument in voices <==> m.instrument == voices[0] || m.instrument in voices[1..] by {
        assert voices == [voices[0]] + voices[1..];
      }
      if m.instrument == voices[0] {
        assert m.instrument !in voices[1..];
      }
    }
  }

  /** Over distinct voices that cover every member's voice, the section counters add up
      to the roster size: every member is shown in exactly one section. */
  lemma {:induction false} SectionTotalCoversRoster(members: seq<Member>, voices: seq<Instrument>)
    requires Distinct(voices)
    requires forall i :: 0 <= i < |members| ==> members[i].instrument in voices
    ensures SectionTotal(members, voices) == |members|
    decreases |members|
  {
    if members == [] {
      SectionTotalOfNobody(voices);
    } else {
      assert members == [members[0]] + members[1..];
      SectionTotalCons(members[0], members[1..], voices);
      SectionTotalCoversRoster(members[1..], voices);
    }
  }

  /** The members page, one section per INSTRUMENT_VOICES entry, shows every member of
      any roster exactly once in total. */
  lemma SectionsPartitionRoster(members: seq<Member>, voices: seq<Instrument>)
    requires voices == InstrumentVoices
    ensures SectionTotal(members, voices) == |members|
  {
    InstrumentVoicesExact();
    SectionTotalCoversRoster(members, voices);
  }
}
