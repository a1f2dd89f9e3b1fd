# NagmaChatbot conversation core in Dafny

This project models the conversational core of the `NagmaChatbot` class of the
Nagma music chatbot (`NagmaChatbot/app/chatbot/nagma_chatbot.py`) and proves
properties of it:

- **Intent routing** in `get_response`: the lower-cased message is scanned intent by
  intent, phrase by phrase. The first phrase of a handled intent that occurs in the
  message decides the answer, even while preferences are being collected.
- **The preference-collection state machine**:
  - The `recommend_songs` intent resets `preferences`, `state`, `preference_params`
    and `preference_index`, then asks the first question.
  - `collect_preferences` range-checks each answer. It stores an accepted value under
    the current parameter and moves on, and after the fifth parameter it ends
    collection with a recommendation.
  - `get_parameter_explanation` supplies the help texts.
- **The recommendation** of `recommend_songs_based_on_preferences`:
  - It checks for the expected columns.
  - It narrows the song frame with a clamped tolerance window per set preference.
  - It takes at most five rows, most popular first when there is a popularity column.
  - It lists them as text.
  - `recommend_songs` is the plain top-five listing.
- **The song-query split** of the `song_information` branch:
  - The matched phrase is removed from the message.
  - The rest is split by the regular expression `(?P<song>.+?) by (?P<artist>.+)`.
  - Both parts are stripped.

Modules:

- `Options`: the option type.
- `PyText`: Python's `str.isspace`/`strip`, `lower`, `in` and `replace(p, '')` on
  `seq<char>`.
- `SongQuery`: the regex split.
- `Frames`: the pandas frame as a sequence of rows, the boolean-mask filter, and
  `sort_values(by='popularity', ascending=False).head(n)`.
- `Recommendations`: the preference dict, the tolerance windows, the filter loop, the
  top-five choice and the listing text.
- `Chatbot`: the pure transition functions and the class `NagmaChatbot`.

The class keeps the source's fields (`state`, `preferences`, `preferenceParams`,
`preferenceIndex`) and updates them in place. Each of its methods is proved equal to a
pure function of the old fields (`Snapshot()`), and the properties are proved about
those functions. While preferences are being collected, the class invariant keeps the
index within the parameter list.

The nested loop of `get_response` over intents and phrases is the method
`MatchIntent`, and `GetResponse` acts on the position it returns. This is the same as
acting inside the loop: the loop passes over the phrases of intents it does not handle,
and every handled intent returns at once.

The regular expression is modelled exactly as `re.match` runs it, including that `.`
does not match a newline:

- The song is the shortest non-empty, newline-free prefix followed by " by ".
- At least one non-newline character must follow the " by ".
- The artist runs to the end of that line.

On a one-line query this is the same as splitting at the first " by " that has a
character on each side (`SongQuery.SplitOneLine`).

## Model

| member | source | states |
|---|---|---|
| PyText.Strip | NagmaChatbot/app/chatbot/nagma_chatbot.py:406 | the result has no whitespace (in the sense of `str.isspace`) at either end, it is `s` with only whitespace removed from the front and back, and it is empty exactly when `s` is all whitespace |
| PyText.StripUnspaced | NagmaChatbot/app/chatbot/nagma_chatbot.py:410-414 | text that neither starts nor ends with whitespace is unchanged by `strip()` |
| PyText.StripIdempotent | NagmaChatbot/app/chatbot/nagma_chatbot.py:406-414 | stripping the already stripped query again changes nothing |
| PyText.StrippedEnds | NagmaChatbot/app/chatbot/nagma_chatbot.py:406 | text that `strip()` leaves unchanged neither starts nor ends with whitespace |
| PyText.StripKeepsLast | NagmaChatbot/app/chatbot/nagma_chatbot.py:410-411 | text ending in a character that is not whitespace keeps that character when stripped, so it does not strip to nothing |
| PyText.Leading | NagmaChatbot/app/chatbot/nagma_chatbot.py:406 | counts the whitespace characters at the front of the text, stopping at the first character that is not whitespace |
| PyText.Trailing | NagmaChatbot/app/chatbot/nagma_chatbot.py:406 | counts the whitespace characters at the back of the text, stopping at the last character that is not whitespace |
| PyText.Lower | NagmaChatbot/app/chatbot/nagma_chatbot.py:398 | `lower()` keeps the length, maps each character by `LowerChar` and leaves no upper-case ASCII letter |
| PyText.LowerChar | NagmaChatbot/app/chatbot/nagma_chatbot.py:398 | an ASCII capital becomes the matching small letter and every other character is kept |
| PyText.Contains | NagmaChatbot/app/chatbot/nagma_chatbot.py:402 | `phrase in text` needs the phrase to be no longer than the text, and the empty phrase occurs in every text |
| PyText.ContainsTail | NagmaChatbot/app/chatbot/nagma_chatbot.py:402 | when the phrase is not at the front, `phrase in text` holds exactly when it holds for the text without its first character |
| PyText.RemoveAll | NagmaChatbot/app/chatbot/nagma_chatbot.py:406 | `replace(phrase, '')` never lengthens the text and keeps only characters of the text; an empty phrase leaves it unchanged |
| PyText.RemoveAllShrinks | NagmaChatbot/app/chatbot/nagma_chatbot.py:406 | removing a non-empty phrase never lengthens the message; it shortens it exactly when the phrase occurs in it, and otherwise returns the message unchanged |
| SongQuery.LineEnd | NagmaChatbot/app/chatbot/nagma_chatbot.py:408 | the greedy artist group stops at the first newline at or after its start, or at the end of the query |
| SongQuery.FindBy | NagmaChatbot/app/chatbot/nagma_chatbot.py:408 | the non-greedy song group ends at the first index where the regex can match, and none exists when it returns nothing |
| SongQuery.FindFirstBy | NagmaChatbot/app/chatbot/nagma_chatbot.py:408 | when the regex can match at an index with no earlier match, the non-greedy search stops exactly there |
| SongQuery.SplitAt | NagmaChatbot/app/chatbot/nagma_chatbot.py:408-411 | with the song group ending at `i`, the song is a stripped text no longer than `i`, and the artist is present, stripped, no longer than the text after ` by `, and free of newlines, as the greedy `.+` stops at the line's end |
| SongQuery.StripWithinLine | NagmaChatbot/app/chatbot/nagma_chatbot.py:411 | stripping the one-line artist group keeps it on one line and makes it no longer |
| SongQuery.SplitSongQuery | NagmaChatbot/app/chatbot/nagma_chatbot.py:406-415 | an artist is found exactly when the regex matches somewhere; when it does not match, the song is the whole stripped query |
| SongQuery.SplitAtFirstBy | NagmaChatbot/app/chatbot/nagma_chatbot.py:408-411 | when the regex matches, the song is the stripped text before the first matching " by " and the artist is the stripped rest of that line |
| SongQuery.SplitAtFound | NagmaChatbot/app/chatbot/nagma_chatbot.py:408-411 | when the search finds a song end, the query is split there: it is followed by " by " and at least one more character |
| SongQuery.TailNonEmpty | NagmaChatbot/app/chatbot/nagma_chatbot.py:411 | the part of a stripped one-line query after " by " does not strip to nothing |
| SongQuery.LineEndWithoutNewline | NagmaChatbot/app/chatbot/nagma_chatbot.py:408 | on a one-line query the artist group runs to the end |
| SongQuery.ByAtOneLine | NagmaChatbot/app/chatbot/nagma_chatbot.py:408 | on a one-line query the regex can match at exactly the places where " by " has a character on each side |
| SongQuery.SplitOneLine | NagmaChatbot/app/chatbot/nagma_chatbot.py:406-415 | on a one-line query: when " by " occurs with a character on each side, the song is the stripped text before its first such occurrence and the artist the stripped text after it; otherwise the stripped query is the song and there is no artist |
| SongQuery.SongNonEmpty | NagmaChatbot/app/chatbot/nagma_chatbot.py:408-414 | a non-empty stripped query always gives a non-empty song name |
| SongQuery.ArtistNonEmpty | NagmaChatbot/app/chatbot/nagma_chatbot.py:408-411 | on a one-line stripped query, an artist that is found is never empty |
| Frames.SubsequenceReflexive | NagmaChatbot/app/chatbot/nagma_chatbot.py:242 | `df.copy()` keeps every row in order |
| Frames.SubsequenceTransitive | NagmaChatbot/app/chatbot/nagma_chatbot.py:265-279 | filtering an already filtered frame still keeps rows of the original frame, in order |
| Frames.KeepInWindow | NagmaChatbot/app/chatbot/nagma_chatbot.py:279 | the mask `(df[c] >= lo) & (df[c] <= hi)` keeps rows of the input in their order, keeps a row exactly when its value lies in [lo, hi], and keeps every copy of such a row (its count in the result is its count in the input, or 0 outside the window) |
| Frames.InsertByPopularity | NagmaChatbot/app/chatbot/nagma_chatbot.py:286 | inserting a row into a popularity-descending sequence gives a popularity-descending permutation of the sequence plus that row |
| Frames.InsertBelowHead | NagmaChatbot/app/chatbot/nagma_chatbot.py:286 | a row less popular than the head, inserted after it, keeps the sequence descending and a permutation |
| Frames.SortByPopularity | NagmaChatbot/app/chatbot/nagma_chatbot.py:286 | `sort_values(by='popularity', ascending=False)` is a permutation of the rows with popularity never increasing |
| Frames.TopByPopularity | NagmaChatbot/app/chatbot/nagma_chatbot.py:286 | `head(n)` after the sort gives min(n, rows) rows drawn from the input, most popular first, and no row left out is more popular than a row chosen |
| Frames.TopOfSorted | NagmaChatbot/app/chatbot/nagma_chatbot.py:286 | the first m rows of a descending permutation are drawn from the input, and every row left out is at most as popular as each chosen row |
| Frames.InRest | NagmaChatbot/app/chatbot/nagma_chatbot.py:286 | a row that occurs in the part after `head(n)` sits at an index at or beyond n |
| Recommendations.Items | NagmaChatbot/app/chatbot/nagma_chatbot.py:254 | `preferences.items()` lists each key once, in insertion order, with its value |
| Recommendations.Put | NagmaChatbot/app/chatbot/nagma_chatbot.py:194 | `d[k] = v` sets `k` to `v`, changes no other key, keeps an existing key's place and appends a new key at the end |
| Recommendations.Window | NagmaChatbot/app/chatbot/nagma_chatbot.py:259-272 | the window is [max(0, v-10), v+10] for tempo and [max(0, v-0.1), min(1, v+0.1)] for every other parameter |
| Recommendations.FilterStep | NagmaChatbot/app/chatbot/nagma_chatbot.py:255-279 | one turn of the loop keeps rows of its input in order, and keeps a row exactly when the entry admits it (an unset value or a missing column filters nothing), with every copy of an admitted row kept and none of another |
| Recommendations.ApplyPreferences | NagmaChatbot/app/chatbot/nagma_chatbot.py:254-279 | the filtered frame is a subsequence of the dataset |
| Recommendations.ApplyPreferencesMembers | NagmaChatbot/app/chatbot/nagma_chatbot.py:254-279 | a row survives the loop exactly when it is a row of the dataset that every preference admits, and it survives as many times as it occurs in the dataset |
| Recommendations.KeptWithinWindows | NagmaChatbot/app/chatbot/nagma_chatbot.py:254-279 | a row is kept exactly when it is a row of the dataset lying within the window of every set preference whose column the frame has, and then as many times as it occurs in the dataset |
| Recommendations.KeptHaveColumns | NagmaChatbot/app/chatbot/nagma_chatbot.py:285-286 | every kept row carries every column of the frame, so popularity is there to sort by |
| Recommendations.ApplyPreferencesStep | NagmaChatbot/app/chatbot/nagma_chatbot.py:254-279 | handling one more item of the dict is one more filter step |
| Recommendations.Narrow | NagmaChatbot/app/chatbot/nagma_chatbot.py:255-279 | one turn of the filter loop computes `FilterStep`: an unset value or a missing column leaves the rows alone, and otherwise only rows inside the clamped window of that parameter stay |
| Recommendations.FilterRows | NagmaChatbot/app/chatbot/nagma_chatbot.py:242-279 | the loop that reassigns `df_filtered` computes the filtered frame `ApplyPreferences` defines |
| Recommendations.Listing | NagmaChatbot/app/chatbot/nagma_chatbot.py:290-291 | the listing is empty exactly when there are no songs, when every song gives a non-empty line |
| Recommendations.SongLine | NagmaChatbot/app/chatbot/nagma_chatbot.py:291 | the line is `- "`, the name, `" by `, the artists and a newline |
| Recommendations.PlainSongLine | NagmaChatbot/app/chatbot/nagma_chatbot.py:180 | the line is `- `, the name, ` by `, the artists and a newline |
| Recommendations.Recommend | NagmaChatbot/app/chatbot/nagma_chatbot.py:241-288 | the missing-columns answer comes exactly when an expected column is absent; the no-match answer exactly when the filter leaves no rows; otherwise between 1 and 5 songs drawn from the filtered rows. With a popularity column they come most popular first, and no filtered row left out is more popular than any chosen song; without one they are the first rows in frame order |
| Recommendations.TopFive | NagmaChatbot/app/chatbot/nagma_chatbot.py:285-288 | with a popularity column: min(5, rows) kept rows, most popular first, and no row left out is more popular than a chosen one; without one: the first min(5, rows) kept rows in frame order |
| Recommendations.ListingStep | NagmaChatbot/app/chatbot/nagma_chatbot.py:290-291 | listing one more song appends that song's line to the listing so far |
| Recommendations.AppendListing | NagmaChatbot/app/chatbot/nagma_chatbot.py:289-291 | the loop that appends one line per song gives the header followed by the lines of all songs, in order |
| Recommendations.RecommendationText | NagmaChatbot/app/chatbot/nagma_chatbot.py:249-292 | a missing column gives the missing-columns message; no match gives the no-match message; otherwise the match header followed by one quoted line per chosen song |
| Chatbot.ParameterExplanation | NagmaChatbot/app/chatbot/nagma_chatbot.py:219-239 | the help text is non-empty exactly for the five asked parameters, and empty for any other name |
| Chatbot.Prompt | NagmaChatbot/app/chatbot/nagma_chatbot.py:209-214 | the question for a parameter starts with its explanation and ends with the BPM hint for tempo and the 0-to-1 hint for every other parameter |
| Chatbot.StartAsksValence | NagmaChatbot/app/chatbot/nagma_chatbot.py:447-461 | the answer to `recommend_songs` is the greeting followed by the question for valence, ending with the 0-to-1 hint |
| Chatbot.NotANumberText | NagmaChatbot/app/chatbot/nagma_chatbot.py:203-204 | the valid-number message is `Please enter a valid number for `, the parameter's name and a full stop |
| Chatbot.OutOfRangeText | NagmaChatbot/app/chatbot/nagma_chatbot.py:196-202 | the range message asks for a realistic tempo value for tempo, and ends with the parameter's name and a full stop otherwise; it always differs from the valid-number message |
| Chatbot.Judge | NagmaChatbot/app/chatbot/nagma_chatbot.py:186-204 | year accepts any int; tempo accepts exactly a float in [40, 250]; every other parameter accepts exactly a float in [0, 1]; the stored value is the parsed one; an unparsable answer gets the valid-number message and an out-of-range one the range message |
| Chatbot.NextSession | NagmaChatbot/app/chatbot/nagma_chatbot.py:185-216 | a rejected answer changes no field; an accepted one stores its value under the current parameter only and advances the index by exactly 1; collection ends exactly when the index reaches the end; the index stays in bounds while collecting |
| Chatbot.Collect | NagmaChatbot/app/chatbot/nagma_chatbot.py:185-217 | the reply is the rejection message, or the next parameter's question, or after the last parameter the recommendation for the collected preferences |
| Chatbot.RunCollection | NagmaChatbot/app/chatbot/nagma_chatbot.py:185-217 | any run of answers keeps the session valid and the parameter list unchanged |
| Chatbot.AcceptStep | NagmaChatbot/app/chatbot/nagma_chatbot.py:186-207 | an accepted answer appends the current parameter, not asked before, to the dict's order and stores its value |
| Chatbot.ValuesAfterFirst | NagmaChatbot/app/chatbot/nagma_chatbot.py:185-207 | storing the first answer, then the rest, holds each answer under its own parameter and keeps the values of the parameters asked before |
| Chatbot.CollectAllAccepted | NagmaChatbot/app/chatbot/nagma_chatbot.py:185-217 | when every remaining question gets an accepted answer, collection ends; the preferences then list the parameters in the order asked, keep earlier values, and hold each answer under its parameter |
| Chatbot.CollectFromFirst | NagmaChatbot/app/chatbot/nagma_chatbot.py:185-217 | for any list of distinct parameters, collecting from the first with every answer accepted ends collection with the items of the preferences being the parameters in order, each with its answer |
| Chatbot.ItemsInOrder | NagmaChatbot/app/chatbot/nagma_chatbot.py:254 | a dict whose keys are the parameters, in order, and whose values are the answers lists exactly those pairs as its items |
| Chatbot.ParametersDistinct | NagmaChatbot/app/chatbot/nagma_chatbot.py:447 | the five parameters are pairwise different |
| Chatbot.CollectAllFive | NagmaChatbot/app/chatbot/nagma_chatbot.py:443-448 | after the recommendation starts, five accepted answers end collection with `preferences.items()` equal to the five parameters, in order, with their values |
| Chatbot.FirstMatchFrom | NagmaChatbot/app/chatbot/nagma_chatbot.py:400-402 | the scan from a position finds the first handled intent phrase at or after it, or reports that there is none |
| Chatbot.FirstMatch | NagmaChatbot/app/chatbot/nagma_chatbot.py:400-402 | the phrase acted on occurs in the message, belongs to a handled intent and has no such phrase before it; with no result, no handled phrase occurs |
| Chatbot.FirstMatchIs | NagmaChatbot/app/chatbot/nagma_chatbot.py:400-402 | a handled phrase occurring with none before it is the one acted on |
| Chatbot.MatchIntent | NagmaChatbot/app/chatbot/nagma_chatbot.py:400-402 | the loop over intents and phrases stops at the first phrase of a handled intent that occurs in the message, passing over other intents, and finds nothing when no handled phrase occurs |
| Chatbot.Respond | NagmaChatbot/app/chatbot/nagma_chatbot.py:394-475 | `recommend_songs` resets the fields to empty preferences, collecting state, the five parameters and index 0, and answers with the greeting and the first question; `song_information` asks about the song and artist split from the lower-cased message with the phrase removed and stripped, `artist_information` about that stripped text, and `trending_songs` answers with the trending reply, each leaving the fields alone even during collection; without a match, a message during collection is answered by `Collect` on the judgment of the stripped message for the current parameter, and otherwise the fallback answers with the fields unchanged |
| Chatbot.NagmaChatbot.constructor | NagmaChatbot/app/chatbot/nagma_chatbot.py:19-26 | the fields start as no state, empty preferences, no parameters and index 0 |
| Chatbot.NagmaChatbot.CollectPreferences | NagmaChatbot/app/chatbot/nagma_chatbot.py:185-217 | the new fields and the reply are those of `Collect` on the judged, stripped answer, and the invariant is kept |
| Chatbot.NagmaChatbot.RecommendSongsBasedOnPreferences | NagmaChatbot/app/chatbot/nagma_chatbot.py:241-292 | the reply is the text of `Recommend` for the frame and the current preferences |
| Chatbot.NagmaChatbot.RecommendSongs | NagmaChatbot/app/chatbot/nagma_chatbot.py:174-183 | without popularity, the no-data message; otherwise the plain header followed by one line for each of the five most popular songs, in order |
| Chatbot.NagmaChatbot.GetResponse | NagmaChatbot/app/chatbot/nagma_chatbot.py:394-466 | the new fields and the reply are those of `Respond`, and the invariant (index in bounds while collecting) is kept |

## Left out

- `load_dataset` (CSV reading, column renaming and cleaning): file I/O through pandas. The frame is a constructor argument: a set of numeric columns and rows that carry every one of them.
- Missing values (NaN) inside the frame: every row carries a real value for each column, so the NaN comparisons pandas would make are not modelled.
- Rows' `name` and `artists`: modelled as text and written into the listing verbatim. The formatting of non-text values by f-strings is not modelled.
- The `intents` and `responses` tables: they live in another module. The intents are a parameter (a sequence of names with phrases, in dictionary order).
- The rapidfuzz fallback (`process.extractOne` with `token_set_ratio`): a foreign library. The reply `Fallback(input)` stands for its answer.
- `get_song_information`: its pandas lookup is not modelled. The reply `SongInfo` carries the song and artist it would be called with.
- `get_trending_songs`: it depends on the wall clock and date parsing. The reply `TrendingSongs` stands for its answer, and its reassignment of `df` is not modelled.
- `get_artist_stats` and `format_artist_info`: pandas aggregation and float formatting. The reply `ArtistInfo` carries the artist text before the `re.sub` punctuation removal, which is not modelled.
- `run`, `print`, `input` and logging: console I/O.
- The fields `user_preferences` and `context`: never read by the modelled code.
- The `except Exception` branch of `recommend_songs_based_on_preferences` (nagma_chatbot.py:294-296): the program reaches it when the loaded frame has no `name` or `artists` column, because `song['name']` at :291 then raises `KeyError` and the reply is "Sorry, an error occurred while trying to recommend songs.". A `Row` always carries a name and artists, so the model cannot express a frame without those columns, and that reply is never produced.
- Chatbot.Judge: `int()` and `float()` parsing of the stripped answer are parameters. `float()` yields a finite real, an infinity or NaN, so an infinite or NaN answer gets the range message as in Python.
- PyText.Lower: only ASCII letters are lower-cased. Python's full Unicode case mapping is not modelled.
- Recommendations.Window: bounds are exact real arithmetic. Floating-point rounding of `value - 0.1` and `value + 0.1` is not modelled.
- Frames.SortByPopularity: rows of equal popularity keep their frame order. pandas' default sort does not promise any order among ties, so the listing order of tied songs is one of the orders pandas may produce. The contract holds for any tie order.
- The music-streaming web backend and client of the repository: not part of this model.
