# Birthday quiz: deck, live host session and narration prompts

This project is a Dafny model of the logic at the core of the birthday quiz web app. The app keeps a deck of quiz cards, and a voice "host" talks to the players through a live audio session with a remote model. Three parts are modelled.

- **The quiz deck** (`App.tsx`), module `App`:
  - the built-in sample deck;
  - the Fisher–Yates option shuffle, as a method over an array copy;
  - the entry form and `addQuestion`: its validation, option building, defaults and form reset;
  - `deleteQuestion`;
  - play-mode navigation (`nextCard`, `prevCard`, `resetGame`).

  The component state is the class `App.QuizApp`. `String.prototype.trim`, which the form's validation and option filter rely on, is modelled in module `Text`. The `Question` record is the datatype `Types.Question`.
- **The live session** (`hooks/useGeminiLive.ts`), module `GeminiLive`:
  - the hook's refs and state as the class `GeminiLive.LiveSession`;
  - `disconnect`, `sendText`, the synchronous part of `connect` and its `catch` path;
  - the transport callbacks `onopen`, `onmessage`, `onerror` and `onclose`, and the `ended` listener of each playback source.

  The playback scheduler starts every fragment at `max(nextStartTime, currentTime)` and then moves `nextStartTime` by the fragment's duration. The ghost invariant `LiveSession.Valid` says the active sources never overlap and never play past `nextStartTime`. The function `Schedule` with the lemma `ScheduleIsGapless` proves that a run of fragments plays back to back.
- **The host overlay** (`components/LiveHost.tsx`), module `LiveHost`:
  - `handleReadCard`'s prompt as the function `ReadCardPrompt`;
  - the lettered options text (`Option A: …, Option B: …`) as the function `OptionsText`;
  - the button rules of the overlay.

Nondeterminism and the outside world come in as parameters:
- the shuffle's random draws are a sequence `picks`;
- `Date.now()` is a string `stamp`;
- the output clock and a decoded fragment's duration are `real` arguments;
- the result of the awaited steps of `connect` is a `ConnectOutcome`.

Each reference the hook holds (stream, processor, source node, the two audio contexts, the two gain nodes, the session promise) is a `bool` saying whether it is held. Each playback source is a number minted from a counter. `slots` records where each source was started and for how long.

One departure from the declared types: `Question.options` is declared required in `types.ts`, but decks are read back from storage without validation, and `components/LiveHost.tsx:36` tests for it being missing. The model makes it an `Option`.

## Model

| member | source | states |
|---|---|---|
| App.QuizApp.constructor | App.tsx:47-71 | The deck starts as the stored one, or as the three built-in questions when nothing is stored. The form starts empty, with no image. Play starts at card 0, face down. |
| App.QuizApp.EditForm | App.tsx:53-63 | The form's change handlers replace the form's fields and touch nothing else. |
| App.Swap | App.tsx:40 | The destructuring swap exchanges the two positions and leaves every other position as it was. |
| App.SwapDown | App.tsx:38-41 | The loop's passes from a given position down to 1, in that order, as a recursive function: they keep the length. |
| App.FisherYates | App.tsx:38-41 | The shuffle pass as a function of the draws, which is `SwapDown` run from the last position: it keeps the length. That it is a permutation is `FisherYatesPermutes`. |
| App.SwapPermutes | App.tsx:40 | Exchanging two elements keeps the multiset of elements. |
| App.SwapDownPermutes | App.tsx:38-41 | Every sequence of passes of the shuffle loop, from any position down to 1, is a permutation of its input. |
| App.FisherYatesPermutes | App.tsx:36-43 | The whole shuffle is a permutation of its input. |
| App.ShuffleArray | App.tsx:36-43 | It copies the argument into a fresh array and swaps position `i` with a drawn `j <= i` for `i` from the last position down to 1. The result is that pass, so it has the argument's length and multiset. The argument is a value, so it is not changed. |
| App.Filter | App.tsx:160 | The filter result is no longer than its input, and every element kept passes the predicate. |
| App.FilterCounts | App.tsx:160 | An accepted element is kept as many times as it occurs, and a rejected one is dropped entirely, so duplicates survive. |
| App.FilterAppend | App.tsx:160 | Filtering preserves order: filtering a concatenation is concatenating the filtered parts. |
| App.FilterKeepsAll | App.tsx:160 | Filtering with a predicate that every element passes returns the input unchanged. |
| Text.Trim | App.tsx:157 | `trim()` is never longer than its argument and neither starts nor ends with white space. |
| App.IsFilled | App.tsx:160 | The option filter's test `opt.trim() !== ''` holds exactly when the string has a character other than white space. |
| App.Form.Accepted | App.tsx:157 | The form is accepted exactly when the trimmed question text, answer and first distractor are all non-empty. |
| App.Form.Options | App.tsx:160 | The unshuffled options are at most four, each non-blank after trimming and each one of the answer and the three distractors. |
| Text.TrimStartShape | App.tsx:157 | Trimming the start leaves a suffix that starts with a non-space character, and what it removed is all white space. |
| Text.TrimEndShape | App.tsx:157 | Trimming the end leaves a prefix that ends with a non-space character, and what it removed is all white space. |
| Text.TrimShape | App.tsx:157 | `trim()` returns the slice between two all-white-space margins, and that slice neither starts nor ends with white space. |
| Text.TrimEmptyIffBlank | App.tsx:157 | `s.trim()` is empty if and only if every character of `s` is white space. This is the form's emptiness test in both directions. |
| App.AcceptedFormOptions | App.tsx:157-160 | On a form that passes validation, the options are the answer, then the first distractor, then the filled distractors among the last two, in that order. There are two to four of them, none blank, and duplicates are kept. |
| App.NewQuestion | App.tsx:163-171 | The new question always has options and a non-empty category, and never a present-but-empty fun fact or image. |
| App.AddedQuestionShape | App.tsx:160-171 | The new question takes its id from the clock and keeps the form's text and answer. Its 2 to 4 non-blank options are a permutation of the filtered options, and include the answer and the first distractor. An empty category becomes `Trivia`. The fun fact is absent exactly when it was empty and is otherwise stored unchanged. The image is absent exactly when it was null or empty and is otherwise the generated image unchanged. |
| App.QuizApp.AddQuestion | App.tsx:156-185 | A form with a blank question, answer or first distractor changes nothing. Otherwise exactly one question, built from the form and the shuffled options, is appended after the unchanged earlier questions, and every form field and the image are cleared. |
| App.WithoutId | App.tsx:188 | No question left after deleting an id carries that id. |
| App.DeleteCounts | App.tsx:188 | Deletion keeps every question with a different id, as many times as it occurred, and drops every question with this id. |
| App.DeleteKeepsOrder | App.tsx:188 | Deletion keeps the relative order of the questions it keeps, because it distributes over concatenation. |
| App.DeleteAbsentIsNoop | App.tsx:188 | Deleting an id that no question carries leaves the deck unchanged. |
| App.DeleteUndoesAdd | App.tsx:173-188 | Deleting the id of a question that was just appended with a fresh id restores the earlier deck. |
| App.QuizApp.DeleteQuestion | App.tsx:187-189 | The deck becomes exactly the old deck without the questions carrying `id`. |
| App.Next | App.tsx:194 | The next index is below `n`. It is `i + 1` inside the deck, and the last card wraps to 0. |
| App.Prev | App.tsx:201 | The previous index is below `n`. It is `i - 1` after the first card, and the first card wraps to `n - 1`. |
| App.PrevNextInverse | App.tsx:191-203 | Going back after going forward, or forward after going back, returns to the same card. |
| App.Advance | App.tsx:194 | Any number of presses of next keeps the index inside the deck. |
| App.AdvanceWithinLap | App.tsx:194 | Within one lap, `k` presses of next from card `i` reach `(i + k) mod n`. |
| App.AdvanceFullLap | App.tsx:194 | `n` presses of next on a deck of `n` cards return to the starting card. |
| App.QuizApp.NextCard | App.tsx:191-196 | The card is unflipped and the index moves to the next card, wrapping. The deck is non-empty, because play mode shows the card controls only then (App.tsx:412). |
| App.QuizApp.PrevCard | App.tsx:198-203 | The card is unflipped and the index moves to the previous card, wrapping. |
| App.QuizApp.ResetGame | App.tsx:205-208 | Play is back to card 0, face down. |
| GeminiLive.StartTime | hooks/useGeminiLive.ts:128 | A fragment starts at the later of the schedule end and the current time, never in the past and never before the previous fragment ends. |
| GeminiLive.Schedule | hooks/useGeminiLive.ts:128-149 | Where a run of fragments lands, one slot per fragment. Its ordering and non-overlap are `ScheduleIsGapless`. |
| GeminiLive.ScheduleIsGapless | hooks/useGeminiLive.ts:128-149 | Fragments arriving in order play in that order, each for its own duration, and none starts before it arrived. Consecutive fragments never overlap. A fragment that arrives before its predecessor ends starts exactly when the predecessor ends. |
| GeminiLive.LiveSession.constructor | hooks/useGeminiLive.ts:10-28 | Nothing is held, the hook is not connected and not speaking, there is no error, the schedule is at 0 and no source is active. |
| GeminiLive.LiveSession.Disconnect | hooks/useGeminiLive.ts:30-62 | It releases the stream, processor, source node, both contexts and the session, and reports not connected and not speaking. The error, the gain nodes, `nextStartTime` and the active sources are untouched. A second call changes nothing. |
| GeminiLive.LiveSession.SendText | hooks/useGeminiLive.ts:64-76 | The text goes out unchanged exactly when a session is held, and the session state is not changed. |
| GeminiLive.LiveSession.Connect | hooks/useGeminiLive.ts:78-186 | The error is cleared first, and the contexts and gain nodes are created. On success the stream and the session are held. On a throw, the thrown message (or `Failed to connect`) is recorded and the hook reports not connected. The contexts stay held on that path. |
| GeminiLive.LiveSession.OnOpen | hooks/useGeminiLive.ts:99-119 | The hook reports connected, and the capture nodes are created only when the input context and the stream are still held. |
| GeminiLive.LiveSession.OnMessage | hooks/useGeminiLive.ts:120-162 | A message without audio, or without an output context or node, leaves the schedule, the sources and the speaking flag unchanged. Otherwise a new source is started at `max(nextStartTime, now)`, the schedule end moves to its end, it joins the active set and the host is speaking. An interruption, checked afterwards, empties the set, resets the schedule to 0 and stops speaking. Without an interruption `nextStartTime` never decreases. The non-overlap invariant is kept. |
| GeminiLive.LiveSession.OnEnded | hooks/useGeminiLive.ts:141-146 | The source leaves the active set, and an unknown source leaves the set unchanged. Speaking stops exactly when the set becomes empty and is otherwise untouched. |
| GeminiLive.LiveSession.OnError | hooks/useGeminiLive.ts:163-167 | The connection error text is recorded, then the session is torn down as by `disconnect`: not connected and not speaking. The gain nodes, the schedule, the active sources and the record of created sources are unchanged. |
| GeminiLive.LiveSession.OnClose | hooks/useGeminiLive.ts:168-171 | The hook reports not connected, and nothing else changes. |
| LiveHost.Letter | components/LiveHost.tsx:37 | Option letters start at `A`, and the first 26 options get capital letters. |
| LiveHost.LettersDistinct | components/LiveHost.tsx:37 | Different options get different letters, and the four options of a full card are lettered `A` to `D`. |
| LiveHost.Labels | components/LiveHost.tsx:37 | There is one label per option, and all labels are different, even for equal options, which `addQuestion` keeps. |
| LiveHost.LabelsDistinct | components/LiveHost.tsx:37 | Labels that each carry their own option's letter are pairwise different. |
| LiveHost.Join | components/LiveHost.tsx:37 | The joined string is as long as all the parts together plus one separator between each two neighbours. |
| LiveHost.OffsetStep | components/LiveHost.tsx:37 | In a joined string, each part begins right after the previous part and one separator. |
| LiveHost.JoinFromOffset | components/LiveHost.tsx:37 | From the offset of part `i` on, the joined string is the join of parts `i` onwards. |
| LiveHost.JoinPlacesPart | components/LiveHost.tsx:37 | Every part appears whole at its offset. Each part except the last is followed by the separator and then the next part, so the parts appear in their original order. |
| LiveHost.OptionsText | components/LiveHost.tsx:36-38 | The options text is empty exactly when the card has no options or an empty list. |
| LiveHost.OptionsTextPlacesOption | components/LiveHost.tsx:36-38 | Option `i` appears in the options text as `Option <letter i>: <option>`, in order. Each option except the last is followed by `, `. A card with no options and a card with an empty list both give an empty options text. |
| LiveHost.ReadCardPrompt | components/LiveHost.tsx:30-42 | There is a prompt exactly when there is a card. |
| LiveHost.FlippedPromptQuotesAnswer | components/LiveHost.tsx:33-34 | A flipped card's prompt is the announcement lead, then the answer, then a closing quote. |
| LiveHost.QuestionPromptLayout | components/LiveHost.tsx:40 | A face-up card's prompt is the question lead, then the question text, then the closing quote and options lead, then the options text, then the request to guess. |
| LiveHost.ShowReadButton | components/LiveHost.tsx:54 | The read button is offered only while connected with a card on screen. |
| LiveHost.ShownReadButtonYieldsPrompt | components/LiveHost.tsx:54-56 | Whenever the read button is offered, pressing it yields a prompt. |
| LiveHost.MainButtonAction | components/LiveHost.tsx:65 | The main button disconnects while connected and connects otherwise. |
| LiveHost.PressMainButton | components/LiveHost.tsx:65 | Pressing the main button never touches the schedule, the active sources or the record of created sources. On a connected host it tears the host down as `disconnect` does, keeping the error and the gain nodes. On a disconnected host it connects: the contexts and gain nodes are created, and speaking and the capture nodes are unchanged. The hook then either holds the stream and session with no error, still not connected until the session opens, or records the thrown message (or `Failed to connect`), reports not connected and leaves the stream and session as they were, so a later read sends nothing. |
| LiveHost.ReadCard | components/LiveHost.tsx:30-56 | Pressing read sends the card's prompt through `sendText`. A prompt goes out exactly when there is a card and a session is held. |

## Left out

- AI generation of fun facts and images (App.tsx:84-154) is a network call to a hosted model. Its effect on the form is covered by `EditForm`, which sets any fields.
- The default image prompt effect (App.tsx:78-82) only fills the image prompt field, which no modelled operation reads.
- Persistence through `localStorage` and `JSON.parse`/`JSON.stringify` (App.tsx:47-50,73-75) is I/O. The stored deck is a constructor argument.
- The 200 ms `setTimeout` in `nextCard`/`prevCard` is not modelled. The index update is immediate.
- `Math.random` is replaced by the caller-supplied draws `picks`, and `Date.now()` by the caller-supplied `stamp`.
- The id's uniqueness is not modelled, because it depends on the clock. `DeleteUndoesAdd` states it as a precondition.
- Browser and network wiring is not modelled: `AudioContext`, `getUserMedia`, the script processor's capture callback, and `ai.live.connect` with its promise. Each `connect` creates a new output context whose clock starts again at 0, while `disconnect` keeps `nextStartTime` and the active sources. So the `now` values on either side of a reconnect come from different clocks, and the first fragment after a reconnect is scheduled at the old schedule end on the new clock. `ScheduleIsGapless` describes one run on one clock.
- `GeminiLive.LiveSession.Connect`: throws are modelled only after the contexts are created. A throw while constructing the client or the contexts is not modelled.
- `utils/audioUtils` (`decode`, `decodeAudioData`, `createBlob`) is not part of this model. A fragment is reduced to its decoded duration.
- The `await` between computing the start time and starting the source (hooks/useGeminiLive.ts:128-148) is not modelled. Each message is handled atomically, so interleavings of concurrent messages are not covered.
- Stopping and closing the audio objects and the session is not modelled. Only the handles being released is modelled.
- Times and durations are `real`, not IEEE doubles. No rounding is modelled.
- `GeminiLive.LiveSession.OnMessage`: the path where `decode` or `decodeAudioData` throws (hooks/useGeminiLive.ts:130-135) is not modelled. On that path the handler has already set speaking and moved `nextStartTime` (lines 124 and 128), adds no source and skips the interruption check. The hook then reports speaking with no active source, which breaks the clause `isSpeaking ==> activeSources != {}` of `LiveSession.Valid`.
- `GeminiLive.LiveSession.SendText`: the model treats the session as always having a `send` method and the session promise as always resolving. When `send` is missing the source only logs a warning (hooks/useGeminiLive.ts:68-73), and when the promise rejects nothing is sent.
- `GeminiLive.LiveSession.OnMessage` requires a non-negative duration. An audio buffer's duration is never negative.
- `components/Card.tsx` and `components/QuestionList.tsx` are pure rendering and are not part of this model.
- `LiveHost.Letter`: requires fewer than 55231 options. Past that, `String.fromCharCode(65 + i)` reaches the surrogate range, which a Dafny `char` cannot hold.
- `LiveHost.Labels`: same bound on the number of options as `Letter`.
- `LiveHost.OptionsText`: same bound on the number of options as `Letter`.
- `LiveHost.ReadCardPrompt`: same bound on the number of options as `Letter`.
- `LiveHost.ReadCard`: same bound on the number of options as `Letter`.
- `LiveHost.ReadCard`: the model treats the session as always having a `send` method. The fallback that only logs a warning is not modelled.
