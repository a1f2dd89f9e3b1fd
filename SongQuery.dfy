/**
 * The song lookup query of the `song_information` intent: after the intent phrase
 * is removed, `re.match(r"(?P<song>.+?) by (?P<artist>.+)", query)` splits the
 * query into a song name and an artist name, both then stripped.
 */
module SongQuery {
  import opened Options
  import opened PyText

  /** What the lookup is asked for: a song name and, when the query names one, an artist. */
  datatype SongRequest = SongRequest(song: string, artist: Option<string>)

  /** No character of `s` is a newline, so a regex `.` can match all of it. */
  predicate NoNewline(s: string)
  {
    forall k :: 0 <= k < |s| ==> s[k] != '\n'
  }

  /**
   * The regex matches with the song group ending at index `i`: `.+?` took the
   * non-empty, newline-free `q[..i]`, the literal " by " follows, and `.+`
   * finds at least one non-newline character after it.
   */
  predicate ByAt(q: string, i: int)
  {
    SeparatorAt(q, i) && NoNewline(q[..i]) && q[i + 4] != '\n'
  }

  /** " by " occurs at index `i` with at least one character before it and one after it. */
  predicate SeparatorAt(q: string, i: int)
  {
    1 <= i && i + 4 < |q| && q[i..i + 4] == " by "
  }

  /** `i` is the smallest song end at which the regex matches. */
  predicate FirstByAt(q: string, i: int)
  {
    ByAt(q, i) && forall j :: 1 <= j < i ==> !ByAt(q, j)
  }

  /** Where the greedy artist group `.+` starting at `j` stops: the first newline at or after `j`, or the end. */
  function LineEnd(q: string, j: nat): (k: nat)
    requires j <= |q|
    ensures j <= k <= |q|
    ensures forall t :: j <= t < k ==> q[t] != '\n'
    ensures k < |q| ==> q[k] == '\n'
    decreases |q| - j
  {
    if j == |q| || q[j] == '\n' then j else LineEnd(q, j + 1)
  }

  /**
   * The non-greedy song group: the first song end `i >= from` at which the
   * regex matches, trying shorter song names first.
   */
  function FindBy(q: string, from: nat): (r: Option<nat>)
    ensures r.Some? ==> from <= r.value && ByAt(q, r.value)
    ensures r.Some? ==> forall j :: from <= j < r.value ==> !ByAt(q, j)
    ensures r.None? ==> forall j :: from <= j ==> !ByAt(q, j)
    decreases |q| - from
  {
    if from + 4 >= |q| then None
    else if ByAt(q, from) then Some(from)
    else FindBy(q, from + 1)
  }

  /** The song and artist that `get_response` extracts from the query, both stripped. */
  function SplitSongQuery(q: string): (r: SongRequest)
    ensures r.artist.Some? <==> exists i :: ByAt(q, i)
    ensures r.artist.None? ==> r.song == Strip(q)
  {
    match FindBy(q, 0)
    case Some(i) => SplitAt(q, i)
    case None => SongRequest(Strip(q), None)
  }

  /** The groups of a match whose song group ends at `i`, both stripped. */
  function SplitAt(q: string, i: nat): (r: SongRequest)
    requires i + 4 <= |q|
    ensures r.artist.Some?
    ensures |r.song| <= i && (r.song == [] || (!IsSpace(r.song[0]) && !IsSpace(r.song[|r.song| - 1])))
    ensures var a := r.artist.value; |a| <= |q| - i - 4 && NoNewline(a)
    ensures var a := r.artist.value; a == [] || (!IsSpace(a[0]) && !IsSpace(a[|a| - 1]))
  {
    var song := Strip(q[..i]);
    var line := q[i + 4..LineEnd(q, i + 4)];
    var artist := Strip(line);
    assert |song| <= i && |artist| <= |line| && NoNewline(artist) by {
      StripWithinLine(line);
    }
    SongRequest(song, Some(artist))
  }

  /** Stripping a text that has no newline gives a shorter text without one. */
  lemma StripWithinLine(line: string)
    requires NoNewline(line)
    ensures |Strip(line)| <= |line| && NoNewline(Strip(line))
  {
    var r := Strip(line);
    assert forall k :: 0 <= k < |r| ==> r[k] == line[Leading(line) + k];
  }

  /**
   * When the regex matches, the song is the stripped text before the first
   * matching " by " and the artist the stripped rest of that line.
   */
  lemma SplitAtFirstBy(q: string, i: nat)
    requires FirstByAt(q, i)
    ensures SplitSongQuery(q) == SongRequest(Strip(q[..i]), Some(Strip(q[i + 4..LineEnd(q, i + 4)])))
  {
    assert FindBy(q, 0) == Some(i) by {
      FindFirstBy(q, i);
    }
    SplitAtFound(q, i);
  }

  /** The split at the song end the scan finds. */
  lemma SplitAtFound(q: string, i: nat)
    requires FindBy(q, 0) == Some(i)
    ensures i + 4 < |q|
    ensures SplitSongQuery(q) == SplitAt(q, i)
  {
  }

  /** The scan for a song end finds the smallest one. */
  lemma FindFirstBy(q: string, i: int)
    requires FirstByAt(q, i)
    ensures FindBy(q, 0) == Some(i)
  {
    var k := FindBy(q, 0);
    assert ByAt(q, i);
    assert k.Some?;
    assert ByAt(q, k.value);
  }

  /** On a one-line query the artist group runs to the end of the query. */
  lemma {:induction false} LineEndWithoutNewline(q: string, j: nat)
    requires j <= |q| && NoNewline(q)
    ensures LineEnd(q, j) == |q|
    decreases |q| - j
  {
    if j < |q| {
      LineEndWithoutNewline(q, j + 1);
    }
  }

  /**
   * On a one-line query: if " by " occurs with at least one character before
   * and after it, the song is the text before its first such occurrence and
   * the artist everything after it, both stripped; otherwise the whole
   * stripped query is the song and there is no artist.
   */
  lemma SplitOneLine(q: string)
    requires NoNewline(q)
    ensures forall i :: SeparatorAt(q, i) && (forall j :: 1 <= j < i ==> !SeparatorAt(q, j)) ==>
      SplitSongQuery(q) == SongRequest(Strip(q[..i]), Some(Strip(q[i + 4..])))
    ensures (forall i :: !SeparatorAt(q, i)) ==> SplitSongQuery(q) == SongRequest(Strip(q), None)
  {
    forall i | SeparatorAt(q, i) && (forall j :: 1 <= j < i ==> !SeparatorAt(q, j))
      ensures SplitSongQuery(q) == SongRequest(Strip(q[..i]), Some(Strip(q[i + 4..])))
    {
      ByAtOneLine(q, i);
      assert FirstByAt(q, i);
      SplitAtFirstBy(q, i);
      LineEndWithoutNewline(q, i + 4);
      assert q[i + 4..LineEnd(q, i + 4)] == q[i + 4..];
    }
  }

  /** On a one-line query the regex matches wherever " by " has a character on each side. */
  lemma ByAtOneLine(q: string, i: int)
    requires NoNewline(q)
    ensures ByAt(q, i) <==> SeparatorAt(q, i)
  {
    if SeparatorAt(q, i) {
      assert forall k :: 0 <= k < i ==> q[..i][k] == q[k];
    }
  }

  /** A non-empty stripped query always yields a non-empty song name. */
  lemma SongNonEmpty(q: string)
    requires q != [] && Strip(q) == q
    ensures SplitSongQuery(q).song != []
  {
    match FindBy(q, 0)
    case Some(i) =>
      var song := q[..i];
      assert song[0] == q[0];
      assert !IsSpace(song[0]);
      assert Strip(song) != [];
    case None =>
  }

  /** On a one-line stripped query, an artist that is found is never empty. */
  lemma ArtistNonEmpty(q: string)
    requires NoNewline(q) && Strip(q) == q
    ensures SplitSongQuery(q).artist.Some? ==> SplitSongQuery(q).artist.value != []
  {
    match FindBy(q, 0)
    case Some(i) =>
      SplitAtFound(q, i);
      LineEndWithoutNewline(q, i + 4);
      StrippedEnds(q);
      TailNonEmpty(q, i + 4);
    case None =>
  }

  /** The part of a text from `j` on, when the text ends in a character that is not whitespace, does not strip to nothing. */
  lemma TailNonEmpty(q: string, j: nat)
    requires j < |q| && !IsSpace(q[|q| - 1])
    ensures Strip(q[j..|q|]) != []
  {
    var tail := q[j..|q|];
    assert tail[|tail| - 1] == q[|q| - 1];
    StripKeepsLast(tail);
  }
}
