/**
 * `recommend_songs_based_on_preferences` and `recommend_songs`: keep the songs
 * whose features lie in a tolerance window around each preferred value, then
 * list at most five of them, most popular first.
 */
module Recommendations {
  import opened Options
  import opened Frames

  /** One item of the `preferences` dict; a value of `None` means "not set". */
  datatype Entry = Entry(key: string, value: Option<real>)

  /** A Python dict from parameter names to optional numbers: its keys in insertion order and its values. */
  datatype Dict = Dict(order: seq<string>, values: map<string, Option<real>>)

  /** Each key is listed once, and exactly the keys with a value are listed. */
  predicate ValidDict(d: Dict)
  {
    && (forall i, j :: 0 <= i < j < |d.order| ==> d.order[i] != d.order[j])
    && d.values.Keys == set k | k in d.order
  }

  const EmptyDict := Dict([], map[])

  /** `d.items()`, in insertion order. */
  function Items(d: Dict): (items: seq<Entry>)
    requires ValidDict(d)
    ensures |items| == |d.order|
    ensures forall i :: 0 <= i < |items| ==> items[i] == Entry(d.order[i], d.values[d.order[i]])
  {
    seq(|d.order|, i requires 0 <= i < |d.order| => Entry(d.order[i], d.values[d.order[i]]))
  }

  /**
   * `d[k] = v`: an existing key keeps its place and gets the new value, a new
   * key is added at the end, and no other key changes.
   */
  function Put(d: Dict, k: string, v: Option<real>): (r: Dict)
    requires ValidDict(d)
    ensures ValidDict(r)
    ensures k in r.values && r.values[k] == v
    ensures forall k' :: k' != k ==> (k' in r.values <==> k' in d.values)
    ensures forall k' :: k' != k && k' in d.values ==> r.values[k'] == d.values[k']
    ensures r.order == if k in d.values then d.order else d.order + [k]
  {
    Dict(if k in d.values then d.order else d.order + [k], d.values[k := v])
  }

  /** The five song features the chatbot asks about, in the order it asks. */
  const ExpectedColumns: seq<string> := ["valence", "acousticness", "danceability", "energy", "tempo"]

  function Max(a: real, b: real): real
  {
    if a >= b then a else b
  }

  function MinReal(a: real, b: real): real
  {
    if a <= b then a else b
  }

  /**
   * The tolerance window around a preferred value: +-10 BPM for tempo (not
   * below 0), +-0.1 for the other features (clamped to [0, 1]).
   */
  function Window(param: string, v: real): (w: (real, real))
    ensures param == "tempo" ==> w == (Max(0.0, v - 10.0), v + 10.0)
    ensures param != "tempo" ==> w == (Max(0.0, v - 0.1), MinReal(1.0, v + 0.1))
  {
    if param == "tempo" then (Max(0.0, v - 10.0), v + 10.0)
    else (Max(0.0, v - 0.1), MinReal(1.0, v + 0.1))
  }

  /**
   * Whether one preference lets row `r` through: unset preferences and
   * preferences for a column the frame lacks filter nothing.
   */
  predicate Admits(columns: set<string>, e: Entry, r: Row)
  {
    e.value.None? || e.key !in columns || InWindow(r, e.key, Window(e.key, e.value.value).0, Window(e.key, e.value.value).1)
  }

  /** One turn of the loop over `preferences.items()`: the rows that entry `e` admits, in order. */
  function FilterStep(columns: set<string>, rows: seq<Row>, e: Entry): (kept: seq<Row>)
    ensures IsSubsequence(kept, rows)
    ensures forall r :: r in kept <==> r in rows && Admits(columns, e, r)
    ensures forall r :: multiset(kept)[r] == if Admits(columns, e, r) then multiset(rows)[r] else 0
  {
    if e.value.None? then
      SubsequenceReflexive(rows);
      rows
    else if e.key == "tempo" then
      var (lo, hi) := Window("tempo", e.value.value);
      if "tempo" in columns then KeepInWindow(rows, "tempo", lo, hi)
      else
        SubsequenceReflexive(rows);
        rows
    else
      var (lo, hi) := Window(e.key, e.value.value);
      if e.key !in columns then
        SubsequenceReflexive(rows);
        rows
      else KeepInWindow(rows, e.key, lo, hi)
  }

  /**
   * `df_filtered` after the loop has handled every item of `prefs`: the rows
   * of the frame that every preference admits, in their original order.
   */
  function ApplyPreferences(columns: set<string>, rows: seq<Row>, prefs: seq<Entry>): (kept: seq<Row>)
    ensures IsSubsequence(kept, rows)
    decreases |prefs|
  {
    if prefs == [] then
      SubsequenceReflexive(rows);
      rows
    else
      var before := ApplyPreferences(columns, rows, prefs[..|prefs| - 1]);
      var after := FilterStep(columns, before, prefs[|prefs| - 1]);
      SubsequenceTransitive(after, before, rows);
      after
  }

  /** A row survives the filter exactly when it is a row of the frame that every preference admits. */
  lemma {:induction false} ApplyPreferencesMembers(columns: set<string>, rows: seq<Row>, prefs: seq<Entry>)
    ensures forall r :: r in ApplyPreferences(columns, rows, prefs) <==>
      r in rows && forall e :: e in prefs ==> Admits(columns, e, r)
    ensures forall r ::
      multiset(ApplyPreferences(columns, rows, prefs))[r] ==
        if forall e :: e in prefs ==> Admits(columns, e, r) then multiset(rows)[r] else 0
    decreases |prefs|
  {
    if prefs != [] {
      var init := prefs[..|prefs| - 1];
      var last := prefs[|prefs| - 1];
      ApplyPreferencesMembers(columns, rows, init);
      assert prefs == init + [last];
      assert forall e :: e in prefs <==> e in init || e == last;
    }
  }

  /**
   * A kept row lies within the window of every set preference whose column the
   * frame has, and a row of the frame within all those windows is kept.
   */
  lemma KeptWithinWindows(df: Frame, prefs: Dict, r: Row)
    requires ValidDict(prefs)
    ensures r in ApplyPreferences(df.columns, df.rows, Items(prefs)) <==>
      r in df.rows && WithinWindows(df.columns, prefs, r)
    ensures multiset(ApplyPreferences(df.columns, df.rows, Items(prefs)))[r] ==
      if WithinWindows(df.columns, prefs, r) then multiset(df.rows)[r] else 0
  {
    var items := Items(prefs);
    ApplyPreferencesMembers(df.columns, df.rows, items);
    forall p | p in prefs.values
      ensures Entry(p, prefs.values[p]) in items
    {
      var i :| 0 <= i < |prefs.order| && prefs.order[i] == p;
      assert items[i] == Entry(p, prefs.values[p]);
    }
    assert (forall e :: e in items ==> Admits(df.columns, e, r)) <==> WithinWindows(df.columns, prefs, r);
  }

  /** Row `r` lies within the window of every set preference whose column the frame has. */
  predicate WithinWindows(columns: set<string>, prefs: Dict, r: Row)
  {
    forall p :: p in prefs.values && prefs.values[p].Some? && p in columns ==>
      InWindow(r, p, Window(p, prefs.values[p].value).0, Window(p, prefs.values[p].value).1)
  }

  /** Every song the filter keeps is a song of the frame, so it has every column of the frame. */
  lemma KeptHaveColumns(df: Frame, prefs: seq<Entry>)
    requires WellFormed(df)
    ensures HasColumns(ApplyPreferences(df.columns, df.rows, prefs), df.columns)
  {
    ApplyPreferencesMembers(df.columns, df.rows, prefs);
  }

  /** Handling one more item of the dict is one more filter step. */
  lemma ApplyPreferencesStep(columns: set<string>, rows: seq<Row>, items: seq<Entry>, i: nat)
    requires i < |items|
    ensures ApplyPreferences(columns, rows, items[..i + 1])
      == FilterStep(columns, ApplyPreferences(columns, rows, items[..i]), items[i])
  {
    assert items[..i + 1][..i] == items[..i];
  }

  /** What `recommend_songs_based_on_preferences` decides, before it is put into words. */
  datatype Recommendation =
    | MissingColumns       // some expected column is absent from the frame
    | NoMatch              // the preferences filtered out every row
    | Songs(top: seq<Row>) // the songs to list, in listing order

  /** The filter and the top-five selection of `recommend_songs_based_on_preferences`. */
  function Recommend(df: Frame, prefs: Dict): (rec: Recommendation)
    requires WellFormed(df) && ValidDict(prefs)
    ensures rec == MissingColumns <==> exists c :: c in ExpectedColumns && c !in df.columns
    ensures var kept := ApplyPreferences(df.columns, df.rows, Items(prefs));
      && (rec == NoMatch <==> !rec.MissingColumns? && kept == [])
      && (rec.Songs? ==>
            && 1 <= |rec.top| == Min(5, |kept|)
            && multiset(rec.top) <= multiset(kept)
            && ("popularity" in df.columns ==> HasPopularity(rec.top) && ByPopularityDesc(rec.top))
            && ("popularity" in df.columns ==> NoneLeftOutMorePopular(kept, rec.top))
            && ("popularity" !in df.columns ==> rec.top == kept[..|rec.top|]))
  {
    if exists c :: c in ExpectedColumns && c !in df.columns then MissingColumns
    else
      var kept := ApplyPreferences(df.columns, df.rows, Items(prefs));
      if kept == [] then NoMatch
      else
        KeptHaveColumns(df, Items(prefs));
        Songs(TopFive(kept, "popularity" in df.columns))
  }

  /**
   * The songs to list: the five most popular rows when the frame has a
   * popularity column, otherwise the first five in frame order.
   */
  function TopFive(kept: seq<Row>, popular: bool): (top: seq<Row>)
    requires popular ==> HasPopularity(kept)
    ensures |top| == Min(5, |kept|)
    ensures multiset(top) <= multiset(kept)
    ensures popular ==> HasPopularity(top) && ByPopularityDesc(top)
    ensures popular ==> NoneLeftOutMorePopular(kept, top)
    ensures !popular ==> top == kept[..|top|]
  {
    if popular then TopByPopularity(kept, 5)
    else
      assert kept == kept[..Min(5, |kept|)] + kept[Min(5, |kept|)..];
      kept[..Min(5, |kept|)]
  }

  /** One line of the listing: `- "name" by artists`. */
  function SongLine(r: Row): (line: string)
    ensures |line| == |r.name| + |r.artists| + 9
    ensures line[..3] == "- \"" && line[3..3 + |r.name|] == r.name
    ensures line[3 + |r.name|..8 + |r.name|] == "\" by "
    ensures line[|line| - 1 - |r.artists|..] == r.artists + "\n"
  {
    "- \"" + r.name + "\" by " + r.artists + "\n"
  }

  /** The lines `line` gives for each of `rows`, in order. */
  function Listing(rows: seq<Row>, line: Row -> string): (text: string)
    ensures (forall r :: r in rows ==> line(r) != []) ==> (text == [] <==> rows == [])
  {
    if rows == [] then "" else Listing(rows[..|rows| - 1], line) + line(rows[|rows| - 1])
  }

  /** The listing of one more row is the listing so far followed by that row's line. */
  lemma ListingStep(rows: seq<Row>, k: nat, line: Row -> string)
    requires k < |rows|
    ensures Listing(rows[..k + 1], line) == Listing(rows[..k], line) + line(rows[k])
  {
    assert rows[..k + 1][..k] == rows[..k];
  }

  /** The `for` loop that adds one line per song to the response. */
  method AppendListing(header: string, rows: seq<Row>, line: Row -> string) returns (text: string)
    ensures text == header + Listing(rows, line)
  {
    text := header;
    var k := 0;
    assert rows[..0] == [];
    while k < |rows|
      invariant 0 <= k <= |rows|
      invariant text == header + Listing(rows[..k], line)
    {
      ListingStep(rows, k, line);
      text := text + line(rows[k]);
      k := k + 1;
    }
    assert rows[..|rows|] == rows;
  }

  /** One turn of the loop over `preferences.items()`: narrow the rows by one preference. */
  method Narrow(columns: set<string>, rows: seq<Row>, e: Entry) returns (filtered: seq<Row>)
    ensures filtered == FilterStep(columns, rows, e)
  {
    filtered := rows;
    if e.value.Some? {
      if e.key == "tempo" {
        var (lo, hi) := Window("tempo", e.value.value);
        if "tempo" in columns {
          filtered := KeepInWindow(rows, "tempo", lo, hi);
        }
      } else {
        var (lo, hi) := Window(e.key, e.value.value);
        if e.key in columns {
          filtered := KeepInWindow(rows, e.key, lo, hi);
        }
      }
    }
  }

  /** The loop over `preferences.items()` that narrows `df_filtered` one preference at a time. */
  method FilterRows(df: Frame, items: seq<Entry>) returns (filtered: seq<Row>)
    ensures filtered == ApplyPreferences(df.columns, df.rows, items)
  {
    filtered := df.rows;
    var i := 0;
    assert items[..0] == [];
    while i < |items|
      invariant 0 <= i <= |items|
      invariant filtered == ApplyPreferences(df.columns, df.rows, items[..i])
    {
      filtered := Narrow(df.columns, filtered, items[i]);
      ApplyPreferencesStep(df.columns, df.rows, items, i);
      assert filtered == ApplyPreferences(df.columns, df.rows, items[..i + 1]);
      i := i + 1;
    }
    assert items[..|items|] == items;
  }

  const MissingColumnsText := "Sorry, the dataset does not have the necessary information to recommend songs based on your preferences."
  const NoMatchText := "Sorry, I couldn't find any songs matching your preferences."
  const MatchHeader := "Here are some songs that match your preferences:\n"

  /** The reply `recommend_songs_based_on_preferences` returns. */
  function RecommendationText(rec: Recommendation): (text: string)
    ensures rec.MissingColumns? ==> text == MissingColumnsText
    ensures rec.NoMatch? ==> text == NoMatchText
    ensures rec.Songs? ==> |MatchHeader| <= |text| && text[..|MatchHeader|] == MatchHeader
    ensures rec.Songs? ==> text[|MatchHeader|..] == Listing(rec.top, SongLine)
  {
    match rec
    case MissingColumns => MissingColumnsText
    case NoMatch => NoMatchText
    case Songs(top) => MatchHeader + Listing(top, SongLine)
  }

  /** One line of the plain listing of `recommend_songs`: `- name by artists`. */
  function PlainSongLine(r: Row): (line: string)
    ensures |line| == |r.name| + |r.artists| + 7
    ensures line[..2] == "- " && line[2..2 + |r.name|] == r.name
    ensures line[2 + |r.name|..6 + |r.name|] == " by "
    ensures line[|line| - 1 - |r.artists|..] == r.artists + "\n"
  {
    "- " + r.name + " by " + r.artists + "\n"
  }

  const PlainHeader := "Here are some song recommendations:\n"
  const NoPopularityText := "Sorry, I don't have popularity data to make recommendations."
}
