/**
 * The conversation logic of `NagmaChatbot`: routing a message to an intent,
 * the preference-collection state machine, and the prompts it shows.
 */
module Chatbot {
  import opened Options
  import opened PyText
  import opened SongQuery
  import opened Frames
  import opened Recommendations

  /** The parameters a recommendation asks for, in the order they are asked. */
  const PreferenceParams: seq<string> := ["valence", "acousticness", "danceability", "energy", "tempo"]

  /** The help text for each parameter. */
  const Explanations: map<string, string> := map[
    "valence" :=
      "Valence describes the musical positiveness conveyed by a track. "
      + "High valence sounds more positive (happy, cheerful), while low valence sounds more negative (sad, angry).",
    "acousticness" :=
      "Acousticness measures how acoustic a song is. Higher values indicate more acoustic sounds.",
    "danceability" :=
      "Danceability describes how suitable a track is for dancing based on tempo, rhythm stability, beat strength, and overall regularity.",
    "energy" :=
      "Energy represents a perceptual measure of intensity and activity. Energetic tracks feel fast, loud, and noisy.",
    "tempo" :=
      "Tempo is the speed of the song measured in beats per minute (BPM). Please enter your preferred tempo as a number."
  ]

  /** `get_parameter_explanation`: the help text for a parameter, empty for any other name. */
  function ParameterExplanation(param: string): (text: string)
    ensures text != "" <==> param in PreferenceParams
  {
    assert Explanations.Keys == set p | p in PreferenceParams;
    assert forall p :: p in Explanations ==> Explanations[p] != "";
    if param in Explanations then Explanations[param] else ""
  }

  /** The question asked for a parameter: its explanation and the kind of number expected. */
  function Prompt(param: string): (text: string)
    ensures var e := ParameterExplanation(param); |e| <= |text| && text[..|e|] == e
    ensures var hint := if param == "tempo" then TempoHint else RangeHint;
      |hint| <= |text| && text[|text| - |hint|..] == hint
  {
    var e := ParameterExplanation(param);
    var hint := if param == "tempo" then TempoHint else RangeHint;
    var question := "\nWhat **" + param + "** value do you prefer? ";
    e + question + hint
  }

  const TempoHint := "(Enter a number, e.g., 60-180 BPM)"
  const RangeHint := "(Enter a number between 0 and 1)"

  const Greeting := "Sure! Let's find songs based on your preferences.\n"

  /** The reply that starts a recommendation: a greeting and the question for the first parameter. */
  const StartText := Greeting + Prompt(PreferenceParams[0])

  /** Starting a recommendation greets the user and asks for valence, as a number between 0 and 1. */
  lemma StartAsksValence()
    ensures |Greeting| <= |StartText| && StartText[..|Greeting|] == Greeting
    ensures StartText[|Greeting|..] == Prompt("valence")
    ensures StartText[|StartText| - |RangeHint|..] == RangeHint
  {
    assert PreferenceParams[0] == "valence";
    assert "valence" != "tempo";
  }

  /** What Python's `float()` can return: a finite number, an infinity or NaN. */
  datatype Float = Finite(value: real) | Infinity(negative: bool) | NaN

  /** `lo <= x <= hi` in Python: false for NaN and for the infinities outside the bounds. */
  predicate InRange(x: Option<Float>, lo: real, hi: real)
  {
    x.Some? && x.value.Finite? && lo <= x.value.value <= hi
  }

  /** The verdict on one answer: the number to store, or the message asking again. */
  datatype Verdict = Accept(value: real) | Reject(message: string)

  /** The reply to an answer that is not a number: it names the parameter asked for. */
  function NotANumberText(param: string): (text: string)
    ensures |text| == 33 + |param|
    ensures text[..32] == "Please enter a valid number for "
    ensures text[32..] == param + "."
  {
    "Please enter a valid number for " + param + "."
  }

  /**
   * The reply to a number outside the accepted range: a realistic-tempo request
   * for `tempo`, the 0-to-1 request naming the parameter otherwise; it always
   * differs from the not-a-number reply.
   */
  function OutOfRangeText(param: string): (text: string)
    ensures |text| >= 13 && text[..13] == "Please enter "
    ensures text != NotANumberText(param)
    ensures param == "tempo" ==> |text| >= 36 && text[13..36] == "a realistic tempo value"
    ensures param != "tempo" ==> |text| > |param| && text[|text| - |param| - 1..] == param + "."
  {
    var other := NotANumberText(param);
    assert other[15] == 'v';
    if param == "tempo" then
      var request := "a realistic tempo value";
      var text := "Please enter " + request + " (e.g., 60-180 BPM).";
      assert text[13..36] == request;
      assert text[15] != other[15];
      text
    else "Please enter a number between 0 and 1 for " + param + "."
  }

  /**
   * The checks `collect_preferences` applies to an answer for `param`, given what
   * `int()` and `float()` make of the stripped answer (`None` when they raise
   * `ValueError`): a year is any integer, a tempo a number in [40, 250], any
   * other parameter a number in [0, 1]; an accepted number is stored as given.
   */
  function Judge(param: string, asInt: Option<int>, asFloat: Option<Float>): (v: Verdict)
    ensures param == "year" ==> (v.Accept? <==> asInt.Some?)
    ensures param == "year" && v.Accept? ==> v.value == asInt.value as real
    ensures param == "tempo" ==> (v.Accept? <==> InRange(asFloat, 40.0, 250.0))
    ensures param != "year" && param != "tempo" ==> (v.Accept? <==> InRange(asFloat, 0.0, 1.0))
    ensures param != "year" && v.Accept? ==> asFloat == Some(Finite(v.value))
    ensures v.Reject? && (if param == "year" then asInt.None? else asFloat.None?) ==>
      v.message == NotANumberText(param)
    ensures v.Reject? && (if param == "year" then asInt.Some? else asFloat.Some?) ==>
      v.message == OutOfRangeText(param)
  {
    if param == "year" then
      if asInt.Some? then Accept(asInt.value as real) else Reject(NotANumberText(param))
    else if asFloat.None? then Reject(NotANumberText(param))
    else if param == "tempo" then
      if InRange(asFloat, 40.0, 250.0) then Accept(asFloat.value.value) else Reject(OutOfRangeText(param))
    else
      if InRange(asFloat, 0.0, 1.0) then Accept(asFloat.value.value) else Reject(OutOfRangeText(param))
  }

  /** The `state` field: `None`, or `'collecting_preferences'`. */
  datatype ConvState = Idle | CollectingPreferences

  /** The fields of the chatbot that the conversation changes. */
  datatype Session = Session(state: ConvState, preferences: Dict, params: seq<string>, index: nat)

  /** While preferences are being collected, the index names one of the parameters. */
  predicate SessionValid(s: Session)
  {
    ValidDict(s.preferences) && (s.state == CollectingPreferences ==> s.index < |s.params|)
  }

  /** The fields as `__init__` leaves them. */
  const InitialSession := Session(Idle, EmptyDict, [], 0)

  /** The fields as the `recommend_songs` intent leaves them. */
  const StartSession := Session(CollectingPreferences, EmptyDict, PreferenceParams, 0)

  /**
   * How `collect_preferences` changes the fields once the answer has been
   * judged: a rejected answer changes nothing; an accepted one is stored under
   * the current parameter and moves on to the next one, and after the last one
   * collection ends.
   */
  function NextSession(s: Session, v: Verdict): (t: Session)
    requires SessionValid(s) && s.state == CollectingPreferences
    ensures SessionValid(t) && t.params == s.params
    ensures v.Reject? ==> t == s
    ensures v.Accept? ==> t.index == s.index + 1
    ensures v.Accept? ==> t.preferences.values == s.preferences.values[s.params[s.index] := Some(v.value)]
    ensures t.state == Idle <==> t.index == |s.params|
  {
    match v
    case Reject(_) => s
    case Accept(value) =>
      var prefs := Put(s.preferences, s.params[s.index], Some(value));
      var next := s.index + 1;
      Session(if next < |s.params| then CollectingPreferences else Idle, prefs, s.params, next)
  }

  /**
   * `collect_preferences` once the answer has been judged: the new fields and
   * the reply, which is the rejection message, the next question, or after
   * the last question the recommendation for the collected preferences.
   */
  function Collect(s: Session, df: Frame, v: Verdict): (t: (Session, string))
    requires SessionValid(s) && s.state == CollectingPreferences && WellFormed(df)
    ensures t.0 == NextSession(s, v)
    ensures v.Reject? ==> t.1 == v.message
    ensures v.Accept? && t.0.state == CollectingPreferences ==> t.1 == Prompt(s.params[t.0.index])
    ensures t.0.state == Idle ==> t.1 == RecommendationText(Recommend(df, t.0.preferences))
  {
    var next := NextSession(s, v);
    if v.Reject? then (next, v.message)
    else if next.state == CollectingPreferences then (next, Prompt(s.params[next.index]))
    else (next, RecommendationText(Recommend(df, next.preferences)))
  }

  /** The fields after a conversation of judged answers, one per message, until collection ends or the answers run out. */
  function RunCollection(s: Session, verdicts: seq<Verdict>): (r: Session)
    requires SessionValid(s)
    ensures SessionValid(r) && r.params == s.params
    decreases |verdicts|
  {
    if verdicts == [] || s.state == Idle then s
    else RunCollection(NextSession(s, verdicts[0]), verdicts[1..])
  }

  /** The parameter names are pairwise distinct. */
  predicate Distinct(params: seq<string>)
  {
    forall i, j :: 0 <= i < j < |params| ==> params[i] != params[j]
  }

  /**
   * When every remaining question gets an accepted answer, collection ends and
   * the preferences hold exactly the asked parameters, in the order asked, each
   * with the value of its answer.
   */
  lemma {:induction false} CollectAllAccepted(s: Session, verdicts: seq<Verdict>)
    requires SessionValid(s) && s.state == CollectingPreferences
    requires Distinct(s.params) && s.preferences.order == s.params[..s.index]
    requires |verdicts| == |s.params| - s.index && forall k :: 0 <= k < |verdicts| ==> verdicts[k].Accept?
    ensures var r := RunCollection(s, verdicts);
      && r.state == Idle
      && r.preferences.order == s.params
      && forall k :: 0 <= k < |s.params| ==>
           && s.params[k] in r.preferences.values
           && r.preferences.values[s.params[k]] ==
                if k < s.index then s.preferences.values[s.params[k]] else Some(verdicts[k - s.index].value)
    decreases |verdicts|
  {
    var t := AcceptStep(s, verdicts[0]);
    var r := RunCollection(s, verdicts);
    assert r == RunCollection(t, verdicts[1..]);
    if t.state == CollectingPreferences {
      CollectAllAccepted(t, verdicts[1..]);
    } else {
      assert r == t;
      assert t.preferences.order == t.params;
      forall k | 0 <= k < |t.params|
        ensures t.params[k] in t.preferences.values
      {
        assert t.params[k] in t.preferences.order;
      }
    }
    ValuesAfterFirst(s, t, r, verdicts);
  }

  /**
   * The values after the whole run, seen from before the first answer: the
   * first answer's value sits under the current parameter, and the later
   * answers' values move one place along.
   */
  lemma ValuesAfterFirst(s: Session, t: Session, r: Session, verdicts: seq<Verdict>)
    requires verdicts != [] && forall k :: 0 <= k < |verdicts| ==> verdicts[k].Accept?
    requires t.params == s.params && t.index == s.index + 1 && s.index + |verdicts| == |s.params|
    requires t.preferences.values == s.preferences.values[s.params[s.index] := Some(verdicts[0].value)]
    requires forall k :: 0 <= k < s.index ==> s.params[k] in s.preferences.values && s.params[k] != s.params[s.index]
    requires forall k :: 0 <= k < |t.params| ==>
      && t.params[k] in r.preferences.values
      && r.preferences.values[t.params[k]] ==
           if k < t.index then t.preferences.values[t.params[k]] else Some(verdicts[1..][k - t.index].value)
    ensures forall k :: 0 <= k < |s.params| ==>
      && s.params[k] in r.preferences.values
      && r.preferences.values[s.params[k]] ==
           if k < s.index then s.preferences.values[s.params[k]] else Some(verdicts[k - s.index].value)
  {
    forall k | 0 <= k < |s.params|
      ensures s.params[k] in r.preferences.values
      ensures r.preferences.values[s.params[k]] ==
        if k < s.index then s.preferences.values[s.params[k]] else Some(verdicts[k - s.index].value)
    {
      if k > s.index {
        assert verdicts[1..][k - t.index] == verdicts[k - s.index];
      }
    }
  }

  /** One accepted answer stores its value under the current parameter and appends that parameter to the order. */
  lemma AcceptStep(s: Session, v: Verdict) returns (t: Session)
    requires SessionValid(s) && s.state == CollectingPreferences
    requires Distinct(s.params) && s.preferences.order == s.params[..s.index] && v.Accept?
    ensures t == NextSession(s, v)
    ensures t.params == s.params && t.index == s.index + 1
    ensures t.state == Idle <==> t.index == |s.params|
    ensures t.preferences.order == s.params[..t.index]
    ensures t.preferences.values == s.preferences.values[s.params[s.index] := Some(v.value)]
    ensures forall k :: 0 <= k < s.index ==> s.params[k] in s.preferences.values && s.params[k] != s.params[s.index]
  {
    t := NextSession(s, v);
    var param := s.params[s.index];
    forall k | 0 <= k < s.index
      ensures s.params[k] in s.preferences.values && s.params[k] != param
    {
      assert s.params[k] == s.preferences.order[k];
    }
    assert param !in s.preferences.values;
    assert t.preferences == Put(s.preferences, param, Some(v.value));
    assert t.preferences.order == s.params[..s.index] + [param];
    assert s.params[..s.index] + [param] == s.params[..s.index + 1];
  }

  /**
   * Collecting from the first of a list of distinct parameters with every answer
   * accepted, the preferences end up listing the parameters in order, each with
   * its answer's value.
   */
  lemma CollectFromFirst(params: seq<string>, verdicts: seq<Verdict>)
    requires params != [] && Distinct(params)
    requires |verdicts| == |params| && forall k :: 0 <= k < |verdicts| ==> verdicts[k].Accept?
    ensures var r := RunCollection(Session(CollectingPreferences, EmptyDict, params, 0), verdicts);
      && r.state == Idle
      && Items(r.preferences) == seq(|params|, k requires 0 <= k < |params| => Entry(params[k], Some(verdicts[k].value)))
  {
    var s := Session(CollectingPreferences, EmptyDict, params, 0);
    assert params[..0] == [];
    CollectAllAccepted(s, verdicts);
    var r := RunCollection(s, verdicts);
    forall k | 0 <= k < |params|
      ensures params[k] in r.preferences.values && r.preferences.values[params[k]] == Some(verdicts[k].value)
    {
      assert k - s.index == k;
    }
    ItemsInOrder(r.preferences, params, verdicts);
  }

  /** A dict whose keys are `params`, in order, holding the answers' values, lists them as its items. */
  lemma ItemsInOrder(d: Dict, params: seq<string>, verdicts: seq<Verdict>)
    requires ValidDict(d) && d.order == params
    requires |verdicts| == |params| && forall k :: 0 <= k < |verdicts| ==> verdicts[k].Accept?
    requires forall k :: 0 <= k < |params| ==> params[k] in d.values && d.values[params[k]] == Some(verdicts[k].value)
    ensures Items(d) == seq(|params|, k requires 0 <= k < |params| => Entry(params[k], Some(verdicts[k].value)))
  {
    var items := Items(d);
    forall k | 0 <= k < |params|
      ensures items[k] == Entry(params[k], Some(verdicts[k].value))
    {
    }
  }

  /** Starting a recommendation, the preferences end up holding all five parameters in the order asked. */
  lemma CollectAllFive(verdicts: seq<Verdict>)
    requires |verdicts| == 5 && forall k :: 0 <= k < 5 ==> verdicts[k].Accept?
    ensures var r := RunCollection(StartSession, verdicts);
      && r.state == Idle
      && Items(r.preferences) == seq(5, k requires 0 <= k < 5 => Entry(PreferenceParams[k], Some(verdicts[k].value)))
  {
    ParametersDistinct();
    CollectFromFirst(PreferenceParams, verdicts);
  }

  /** No parameter is asked twice. */
  lemma ParametersDistinct()
    ensures Distinct(PreferenceParams)
  {
  }

  /** An entry of the `intents` table: an intent name and the phrases that signal it. */
  datatype Intent = Intent(name: string, phrases: seq<string>)

  /** The intents `get_response` acts on; a phrase of any other intent is passed over. */
  const HandledIntents: set<string> := {"song_information", "trending_songs", "artist_information", "recommend_songs"}

  /** Phrase `j` of intent `i` occurs in the lower-cased message and the intent is one that is acted on. */
  predicate Matches(intents: seq<Intent>, text: string, i: int, j: int)
  {
    && 0 <= i < |intents|
    && 0 <= j < |intents[i].phrases|
    && intents[i].name in HandledIntents
    && Contains(text, intents[i].phrases[j])
  }

  /** Position (i, j) comes before position (i', j') in the scan of intents and their phrases. */
  predicate Before(i: int, j: int, i': int, j': int)
  {
    i < i' || (i == i' && j < j')
  }

  /** The first match at or after position (i, j) in the scan. */
  function FirstMatchFrom(intents: seq<Intent>, text: string, i: nat, j: nat): (r: Option<(nat, nat)>)
    requires i <= |intents| && (i < |intents| ==> j <= |intents[i].phrases|)
    ensures r.Some? ==> Matches(intents, text, r.value.0, r.value.1) && !Before(r.value.0, r.value.1, i, j)
    ensures r.Some? ==> forall i', j' :: Matches(intents, text, i', j') && !Before(i', j', i, j) ==>
      !Before(i', j', r.value.0, r.value.1)
    ensures r.None? ==> forall i', j' :: Matches(intents, text, i', j') ==> Before(i', j', i, j)
    decreases |intents| - i, if i < |intents| then |intents[i].phrases| - j else 0
  {
    if i == |intents| then None
    else if j == |intents[i].phrases| then FirstMatchFrom(intents, text, i + 1, 0)
    else if Matches(intents, text, i, j) then Some((i, j))
    else FirstMatchFrom(intents, text, i, j + 1)
  }

  /** The intent phrase `get_response` acts on: the first handled match in the scan. */
  function FirstMatch(intents: seq<Intent>, text: string): (r: Option<(nat, nat)>)
    ensures r.Some? ==> Matches(intents, text, r.value.0, r.value.1)
    ensures r.Some? ==> forall i', j' :: Matches(intents, text, i', j') ==> !Before(i', j', r.value.0, r.value.1)
    ensures r.None? ==> forall i', j' :: !Matches(intents, text, i', j')
  {
    if intents == [] then None else FirstMatchFrom(intents, text, 0, 0)
  }

  /** A match with no match before it is the one `FirstMatch` finds. */
  lemma FirstMatchIs(intents: seq<Intent>, text: string, i: nat, j: nat)
    requires Matches(intents, text, i, j)
    requires forall i', j' :: Matches(intents, text, i', j') ==> !Before(i', j', i, j)
    ensures FirstMatch(intents, text) == Some((i, j))
  {
    var r := FirstMatchFrom(intents, text, 0, 0);
    assert r.Some?;
    assert !Before(i, j, r.value.0, r.value.1);
    assert !Before(r.value.0, r.value.1, i, j);
  }

  /**
   * The scan of `get_response` over the intents and their phrases, in order,
   * passing over phrases of intents it does not act on.
   */
  method MatchIntent(intents: seq<Intent>, text: string) returns (m: Option<(nat, nat)>)
    ensures m == FirstMatch(intents, text)
  {
    var i := 0;
    while i < |intents|
      invariant 0 <= i <= |intents|
      invariant forall i', j' :: Matches(intents, text, i', j') ==> i <= i'
    {
      var phrases := intents[i].phrases;
      var j := 0;
      while j < |phrases|
        invariant 0 <= j <= |phrases|
        invariant forall i', j' :: Matches(intents, text, i', j') ==> i < i' || (i == i' && j <= j')
      {
        if Contains(text, phrases[j]) && intents[i].name in HandledIntents {
          FirstMatchIs(intents, text, i, j);
          return Some((i, j));
        }
        j := j + 1;
      }
      i := i + 1;
    }
    return None;
  }

  /** What `get_response` answers. */
  datatype Reply =
    | Text(text: string)                // produced by the modelled code
    | SongInfo(request: SongRequest)    // the answer of `get_song_information` for this request
    | TrendingSongs                     // the answer built from `get_trending_songs`
    | ArtistInfo(artist: string)        // the answer about this artist, before punctuation is removed
    | Fallback(input: string)           // the fuzzy-matched canned answer for the message

  /**
   * `get_response`: the first handled intent phrase in the lower-cased message
   * decides the answer; without one, a message during collection is an answer
   * to the current question, and any other message gets the fallback answer.
   */
  function Respond(s: Session, df: Frame, intents: seq<Intent>, input: string,
                   parseInt: string -> Option<int>, parseFloat: string -> Option<Float>): (t: (Session, Reply))
    requires SessionValid(s) && WellFormed(df)
    ensures SessionValid(t.0)
    ensures var m := FirstMatch(intents, Lower(input));
      && (m.Some? && intents[m.value.0].name == "recommend_songs" ==> t == (StartSession, Text(StartText)))
      && (m.Some? && intents[m.value.0].name == "song_information" ==>
            t == (s, SongInfo(SplitSongQuery(Strip(RemoveAll(Lower(input), intents[m.value.0].phrases[m.value.1]))))))
      && (m.Some? && intents[m.value.0].name == "trending_songs" ==> t == (s, TrendingSongs))
      && (m.Some? && intents[m.value.0].name == "artist_information" ==>
            t == (s, ArtistInfo(Strip(RemoveAll(Lower(input), intents[m.value.0].phrases[m.value.1])))))
      && (m.None? && s.state == Idle ==> t == (s, Fallback(input)))
      && (m.None? && s.state == CollectingPreferences ==>
            t.1.Text? && t.0.params == s.params && (t.0 == s || t.0.index == s.index + 1))
      && (m.None? && s.state == CollectingPreferences ==>
            var c := Collect(s, df, Judge(s.params[s.index], parseInt(Strip(input)), parseFloat(Strip(input))));
            t == (c.0, Text(c.1)))
  {
    var text := Lower(input);
    match FirstMatch(intents, text)
    case Some((i, j)) =>
      var name := intents[i].name;
      var query := Strip(RemoveAll(text, intents[i].phrases[j]));
      if name == "song_information" then (s, SongInfo(SplitSongQuery(query)))
      else if name == "trending_songs" then (s, TrendingSongs)
      else if name == "artist_information" then (s, ArtistInfo(query))
      else (StartSession, Text(StartText))
    case None =>
      if s.state == CollectingPreferences then
        var answer := Strip(input);
        var t := Collect(s, df, Judge(s.params[s.index], parseInt(answer), parseFloat(answer)));
        (t.0, Text(t.1))
      else (s, Fallback(input))
  }

  /** The chatbot object: its song frame and the conversation fields it updates in place. */
  class NagmaChatbot {
    const df: Frame
    var state: ConvState
    var preferences: Dict
    var preferenceParams: seq<string>
    var preferenceIndex: nat

    /** The conversation fields as one value. */
    function Snapshot(): Session
      reads this
    {
      Session(state, preferences, preferenceParams, preferenceIndex)
    }

    ghost predicate Valid()
      reads this
    {
      WellFormed(df) && SessionValid(Snapshot())
    }

    /** `__init__`, given the frame `load_dataset` produced. */
    constructor(df: Frame)
      requires WellFormed(df)
      ensures Valid() && this.df == df && Snapshot() == InitialSession
    {
      this.df := df;
      state := Idle;
      preferences := EmptyDict;
      preferenceParams := [];
      preferenceIndex := 0;
    }

    /** `collect_preferences`: take the user's answer to the current question. */
    method CollectPreferences(userInput: string, parseInt: string -> Option<int>, parseFloat: string -> Option<Float>)
      returns (response: string)
      requires Valid() && state == CollectingPreferences
      modifies this
      ensures Valid()
      ensures (Snapshot(), response)
        == Collect(old(Snapshot()), df, Judge(old(preferenceParams[preferenceIndex]), parseInt(Strip(userInput)), parseFloat(Strip(userInput))))
    {
      var param := preferenceParams[preferenceIndex];
      var answer := Strip(userInput);
      var verdict := Judge(param, parseInt(answer), parseFloat(answer));
      ghost var next := NextSession(Snapshot(), verdict);
      if verdict.Reject? {
        return verdict.message;
      }
      preferences := Put(preferences, param, Some(verdict.value));
      preferenceIndex := preferenceIndex + 1;
      if preferenceIndex < |preferenceParams| {
        assert Snapshot() == next;
        response := Prompt(preferenceParams[preferenceIndex]);
      } else {
        state := Idle;
        assert Snapshot() == next;
        response := RecommendSongsBasedOnPreferences();
      }
    }

    /** `recommend_songs_based_on_preferences`: filter by every preference, then list the top five. */
    method RecommendSongsBasedOnPreferences() returns (response: string)
      requires WellFormed(df) && ValidDict(preferences)
      ensures response == RecommendationText(Recommend(df, preferences))
    {
      if exists c :: c in ExpectedColumns && c !in df.columns {
        return MissingColumnsText;
      }
      var items := Items(preferences);
      var filtered := FilterRows(df, items);
      ghost var rec := Recommend(df, preferences);
      if filtered == [] {
        assert rec == NoMatch;
        return NoMatchText;
      }
      var top: seq<Row>;
      if "popularity" in df.columns {
        KeptHaveColumns(df, items);
        top := TopByPopularity(filtered, 5);
      } else {
        top := filtered[..Min(5, |filtered|)];
      }
      assert rec == Songs(top);
      response := AppendListing(MatchHeader, top, SongLine);
    }

    /** `recommend_songs`: the five most popular songs of the whole frame. */
    method RecommendSongs() returns (response: string)
      requires WellFormed(df)
      ensures "popularity" !in df.columns ==> response == NoPopularityText
      ensures "popularity" in df.columns ==> response == PlainHeader + Listing(TopByPopularity(df.rows, 5), PlainSongLine)
    {
      if "popularity" !in df.columns {
        return NoPopularityText;
      }
      var top := TopByPopularity(df.rows, 5);
      response := AppendListing(PlainHeader, top, PlainSongLine);
    }

    /** `get_response`: answer one message. */
    method GetResponse(userInput: string, intents: seq<Intent>,
                       parseInt: string -> Option<int>, parseFloat: string -> Option<Float>)
      returns (reply: Reply)
      requires Valid()
      modifies this
      ensures Valid()
      ensures (Snapshot(), reply) == Respond(old(Snapshot()), df, intents, userInput, parseInt, parseFloat)
    {
      var text := Lower(userInput);
      var m := MatchIntent(intents, text);
      match m
      case Some((i, j)) =>
        var name := intents[i].name;
        var phrase := intents[i].phrases[j];
        if name == "song_information" {
          var query := Strip(RemoveAll(text, phrase));
          reply := SongInfo(SplitSongQuery(query));
        } else if name == "trending_songs" {
          reply := TrendingSongs;
        } else if name == "artist_information" {
          var artist := Strip(RemoveAll(text, phrase));
          reply := ArtistInfo(artist);
        } else {
          preferences := EmptyDict;
          state := CollectingPreferences;
          preferenceParams := PreferenceParams;
          preferenceIndex := 0;
          reply := Text(StartText);
          assert Snapshot() == StartSession;
        }
      case None =>
        if state == CollectingPreferences {
          var answer := CollectPreferences(userInput, parseInt, parseFloat);
          reply := Text(answer);
        } else {
          reply := Fallback(userInput);
        }
    }
  }
}
