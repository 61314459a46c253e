# Mood-based Spotify player: the decision core

The application watches a face through a webcam and classifies its dominant emotion. From that emotion it picks an artist and asks Spotify to play one of that artist's tracks on a configured device. A helper script stores a fresh OAuth refresh token in the `.env` file.

This project models the deterministic decisions inside that plumbing:

- **`MoodTable`** (`mood_table.dfy`)
  - The static mood-to-artist table.
  - Lower-casing of the detected label.
  - The random pick of one candidate, modelled as an oracle index.
- **`SpotifyPlayback`** (`spotify_playback.dfy`)
  - `play_song` and `play_spotify` as pure functions. The HTTP responses and the token refresh are inputs. Each function returns an outcome and the ordered trace of requests it issued: token refresh, search GET, play PUT.
  - The `ret` guard of `capture_and_show_screen`.
- **`MoodQueue`** (`mood_queue.dfy`)
  - The unbounded FIFO `queue.Queue`, as a class holding a sequence.
  - `detect_mood`, which puts the dominant emotion of one analyser result into that queue.
- **`EnvFile`** (`env_file.dfy`)
  - The `.env` rewrite loop as a method that builds the written lines.
  - The line sequence it must produce.
  - `readlines` and the sequence of writes on the file's text. These give the file-level properties.
- **`Common`** (`common.dfy`): an `Option` type.

The model follows three points of the code exactly:

- **The hand-off channel.** The code uses an unbounded FIFO `queue.Queue`. A take returns the OLDEST unread emotion, and nothing is dropped (`MoodQueue.TwoResultsThenTake`).
- **Unknown moods.** The token is refreshed before the mood lookup, so an unknown mood still makes one token-refresh call.
- **Success codes.** Search success is exactly status 200, and playback success is exactly status 204. Any other 2xx code counts as a failure.

## Model

| member | source | states |
|---|---|---|
| `MoodTable.TableKeysAndNonEmpty` | main.py:43-51 | The table has exactly the seven moods as keys, and every mood has at least one candidate, so a pick for a known mood cannot fail |
| `MoodTable.HappyCandidates` | main.py:44 | `happy` maps to Dua Lipa and Bruno Mars |
| `MoodTable.ToLower` | main.py:123 | Lower-casing keeps the length, leaves no upper-case letter, turns each upper-case letter into its lower-case partner and keeps every other character |
| `MoodTable.ToLowerIdempotent` | main.py:122-123 | Lower-casing an already lower-cased label changes nothing |
| `MoodTable.ToLowerOfUpperCase` | main.py:122-123 | A label that matches a lower-case word letter by letter after lower-casing becomes exactly that word |
| `MoodTable.Choose` | main.py:128 | The pick succeeds exactly when the list is non-empty, and what it picks is a member of the list |
| `MoodTable.ChooseReachesEvery` | main.py:128 | Every candidate can be chosen by some oracle value |
| `MoodTable.SelectArtist` | main.py:123-134 | An artist is selected exactly when the lower-cased emotion is a table key, and the selected artist is in that mood's list; otherwise the outcome is "no artists" |
| `MoodTable.SelectIgnoresCase` | main.py:123-127 | Two labels that agree after lower-casing select the same artist |
| `MoodTable.SelectHappyUpperCase` | main.py:123-128 | `HAPPY` and `happy` select the same artist, either Dua Lipa or Bruno Mars |
| `SpotifyPlayback.EncodeSpaces` | main.py:87 | Replacing each space by `%20` never makes the name shorter |
| `SpotifyPlayback.EncodeSpacesRemovesSpaces` | main.py:87 | The encoded artist name has no space in it; a name without spaces is unchanged |
| `SpotifyPlayback.EncodeSpacesRoundTrip` | main.py:87 | For a name with no `%`, decoding `%20` back to a space gives the original name, so only spaces are changed |
| `SpotifyPlayback.EncodeSpacesAppend` | main.py:87 | Encoding works one character at a time: encoding `a + b` equals encoding `a` then encoding `b` |
| `SpotifyPlayback.SearchUrlShape` | main.py:87 | The search URL starts with the fixed artist-search prefix and ends with `&type=track&limit=1`; the part between them is the encoded name, contains no space and, for a name without `%`, decodes back to the artist |
| `SpotifyPlayback.SearchUrlInjective` | main.py:87 | Two artist names without `%` that give the same search URL are the same name |
| `SpotifyPlayback.PlaySong` | main.py:85-116 | See the list below the table |
| `SpotifyPlayback.PlaySongUsesToken` | main.py:89-107 | Every request `play_song` issues carries the bearer token it was given |
| `SpotifyPlayback.PlaySpotify` | main.py:119-134 | See the list below the table |
| `SpotifyPlayback.PlaySongPlayUrl` | main.py:101-107 | `play_song` issues at most one play request, second in its trace, and it goes to the play URL of its device |
| `SpotifyPlayback.PlaySpotifyPlayUrl` | main.py:119-132 | Every play request `play_spotify` issues goes to the play URL of the device it was given |
| `SpotifyPlayback.PlaySpotifyRequests` | main.py:119-134 | A trace has at most three requests and at most one search; every request after the refresh uses the freshly obtained token |
| `SpotifyPlayback.HappyScenario` | main.py:119-132 | For `happy`, a search returning T123 and a 204 play, the artist is Dua Lipa or Bruno Mars and the outcome is `Started`; the trace is the refresh, one search, and one play of track T123 on the given device |
| `SpotifyPlayback.NoTrackScenario` | main.py:96-114 | An empty item list for Adele ends in `NoTracks` after the search alone |
| `SpotifyPlayback.CaptureAndShow` | main.py:137-148 | No frame means no request at all. A captured frame refreshes the token first; a failed refresh ends there; an unknown lower-cased dominant emotion ends in "no artists"; a known one plays a candidate of that emotion through one `play_song` call with the fresh token and the `DEVICE_ID` text, whose requests follow the refresh |
| `SpotifyPlayback.MissingDevicePlayUrl` | main.py:101-107 | When the button is pressed with `DEVICE_ID` unset, every play request issued goes to the play URL ending in the text `None` |
| `MoodQueue.FifoQueue.constructor` | main.py:173 | A new queue is empty |
| `MoodQueue.FifoQueue.Put` | main.py:80 | `put` appends at the back |
| `MoodQueue.FifoQueue.GetNowait` | main.py:188-202 | An empty queue yields nothing and stays empty; otherwise the front item is removed and returned |
| `MoodQueue.Handoff` | main.py:72-82 | A call adds at most one element. It adds one exactly when the first result has both `emotion` and `dominant_emotion`, and that element is the dominant emotion |
| `MoodQueue.HandoffFirstOnly` | main.py:76 | Results after the first are ignored |
| `MoodQueue.DetectMood` | main.py:72-82 | The queue gains exactly the dominant emotion when both keys are present; on an exception, an empty result, or a missing key, it is unchanged |
| `MoodQueue.TwoResultsThenTake` | main.py:173-189 | Two completed detections followed by one take return the older emotion, and the newer one stays queued |
| `MoodQueue.FailureKeepsEarlier` | main.py:72-82 | A failed or incomplete analysis leaves an earlier unread emotion as the next take |
| `EnvFile.TokenLineHasPrefix` | get_spotify_refresh_token.py:66-67 | A written token line itself starts with `SPOTIPY_REFRESH_TOKEN` |
| `EnvFile.RewrittenAt` | get_spotify_refresh_token.py:66-69 | At any index, a line with the prefix becomes the token line and any other line stays as it is |
| `EnvFile.Rewritten` | get_spotify_refresh_token.py:65-69 | There is one output line per input line. A line starting with the prefix, including e.g. `SPOTIPY_REFRESH_TOKEN_X`, becomes `SPOTIPY_REFRESH_TOKEN=<token>\n` at the same index; every other line is copied unchanged at its index |
| `EnvFile.RewriteEnv` | get_spotify_refresh_token.py:64-69 | The loop writes exactly the rewritten line sequence, in order |
| `EnvFile.RewriteWithoutTokenLine` | get_spotify_refresh_token.py:65-69 | With no token line, the output equals the input; no token line is appended |
| `EnvFile.RewriteIdempotent` | get_spotify_refresh_token.py:66-67 | Rewriting twice with the same token equals rewriting once |
| `EnvFile.RewriteChangesOnlyTokenLines` | get_spotify_refresh_token.py:68-69 | A line that changed started with the prefix |
| `EnvFile.FirstLineLength` | get_spotify_refresh_token.py:62 | The first line read runs up to and including the first newline, or to the end of the text |
| `EnvFile.ConcatReadLines` | get_spotify_refresh_token.py:61-62 | Writing back the lines `readlines` returned gives the original text |
| `EnvFile.Concat` | get_spotify_refresh_token.py:64-69 | The text left by writing lines one after another reads back as the same lines when they are shaped as `readlines` makes them |
| `EnvFile.ReadLines` | get_spotify_refresh_token.py:61-62 | `readlines` always gives well-shaped lines: non-empty, a newline only at the end, and every line except the last ends in one; only the empty text has no lines |
| `EnvFile.RewrittenShape` | get_spotify_refresh_token.py:65-69 | With a newline-free token, the rewrite keeps the lines well shaped |
| `EnvFile.RewriteFileIdempotent` | get_spotify_refresh_token.py:61-69 | Running the script twice on the file with the same newline-free token leaves the same text as running it once |
| `EnvFile.RewriteFile` | get_spotify_refresh_token.py:61-69 | With a newline-free token, reading the new file gives exactly the rewritten lines of the old one, so the file keeps its number of lines |
| `EnvFile.NewlineTokenNotIdempotent` | get_spotify_refresh_token.py:61-69 | A token containing a newline makes the second run change the file and make it longer, so the newline condition above is needed |

`SpotifyPlayback.PlaySong` states:

- The search request is always issued first, with the bearer token.
- A play request is issued exactly when the search status is 200 and there is at least one item.
- The play request goes to the play URL, which embeds the device id verbatim. Its `uris` is exactly the `spotify:track:` URI of the first item.
- The outcome is:
  - `Started` exactly when the play status is 204;
  - `PlayFailed` with the play status for any other play status;
  - `NoTracks` exactly when the search status is 200 with no items;
  - `SearchFailed` with the search status exactly when the search status is not 200.

`SpotifyPlayback.PlaySpotify` states:

- The token refresh comes first, whatever the emotion.
- A failed refresh ends there.
- An unknown lower-cased mood gives "no artists" after the refresh alone.
- A known mood plays an artist from that mood's list, through exactly one `play_song` call whose outcome and requests follow the refresh.

## Left out

- Webcam capture, Haar-cascade face detection, drawing, colour conversion and the Tkinter window (main.py:137-210 apart from the `ret` guard). These are device I/O and GUI.
- DeepFace inference. Its result is an input: `Analysis` for `detect_mood`, and the dominant label for `capture_and_show_screen`. An exception raised by the analyser inside `capture_and_show_screen` is not caught by the source and is not modelled.
- Thread spawning per face and its race with `get_nowait`. The model covers only the sequential effect of a completed `detect_mood` on the queue.
- Real HTTP, the OAuth refresh (`get_token`), the authorisation-code flow and re-prompt dialog of the token script, and the device listing in id.py. A refresh that raises is `TokenFailed`. An HTTP exception raised by `requests` is not modelled.
- The search body is abstracted to "the ids under `tracks.items`, if present". A non-JSON body, or a first item without `id`, would raise in the source; the model does not cover those cases.
- The printed messages and the response `.text`. Outcome datatypes replace them.
- The "Other Emotions" overlay. It formats floating-point scores.
- Opening, reading and writing `.env`. `readlines` is modelled on `\n` only. Python's newline translation in text mode (`\r\n`, `\r`, and `os.linesep` when writing) is not modelled.
- The outer `while running` loop and the unreachable `cap.release()`.
- `MoodTable.ToLower`: lower-cases ASCII letters only, because Unicode case mapping is not available. The table's keys are ASCII, and the only non-ASCII character whose lower-case form is ASCII is the Kelvin sign (it lowers to `k`). No key contains `k`, so whether a label is recognised is the same as under Python's `str.lower`.
- `MoodTable.Choose`: models `random.choice` as an oracle value reduced below the list length, not a uniform distribution. Probabilities are out of scope.
