# Birthday page: UI state model

A Dafny model of the state logic behind a single-page animated birthday greeting.
The page shows five scenes in turn (landing, memory montage, wishes, a riddle, a
personal letter). Around that scene controller sit a few small state machines: the
riddle gate, a three-step secret game, a wish collector, the letter's section
navigator and typewriter, a persisted mute flag, and helpers over the browser's
key-value store.

Of these, only the riddle gate is rendered: `src/App.tsx` imports `SimpleLanding` and
`PuzzleGame` and nothing else, and its wishes and letter scenes are static markup. The
secret game, the wish collector, the personal letter, the sound hook (used only by
`AudioControl`, which nothing renders) and the storage helpers are standalone modules
of the repository that no rendered component imports. They are modelled because their
logic is self-contained; `WishList` and `Letter` are not the page's wishes and letter
scenes.

Modules follow the source files:

| module | source |
|---|---|
| `Scenes` | `src/App.tsx` |
| `Riddle` | `src/components/PuzzleGame.tsx` |
| `Secret` | `src/components/SecretGame.tsx` |
| `WishList` | `src/components/WishesConfetti.tsx` |
| `Letter` | `src/components/PersonalLetter.tsx` |
| `Storage` | `src/utils/storage.ts`, plus the direct `localStorage` reads and writes of the components |
| `Sound` | `src/hooks/useSound.ts` |
| `Text`, `Options` | JavaScript's `trim`, `toLowerCase`, `toUpperCase` and `includes`; an option type |

How the browser is represented:

- `localStorage` is the class `Storage.Store`, whose field `entries` maps keys to
  typed values (`Flag`, `StringList`, `StepRecord`, `Raw`) instead of JSON text. Each
  writing helper is a module-level method that takes the store, specified by a function
  on `entries` (`AfterSaveWish` and the like). The properties are proved about those
  functions. Each reading helper is a function on `entries`.
  `WellTyped` says that each record holds the shape the page writes there. The
  getters require it because the source parses stored text without any guard.
- Each component's state is a class whose methods are its event handlers. A timer
  callback is an explicit event method that the caller invokes. The secret game keeps
  its pending callbacks in a queue and fires them in scheduling order. This order is
  exact: all its step timers share one delay, every heart click happens before every
  word check, and the completion timer is scheduled last.
- Handlers whose control is rendered only at one step of the secret game
  (`HandleHeartClick`, `CheckWord`, `HandleDateSelect`) require that step.
- Audio output is the sequence `emitted` of cues. Whether the environment offers an
  `AudioContext` constructor is a parameter.

Three behaviours of the code that the model keeps:

- Malformed stored data makes the code throw, so the getters require well-typed records.
- `hintIndex` is bumped before it is first displayed, so the second wrong guess shows
  `hints[1]` and `hints[0]` is never shown.
- Stored puzzle progress may be any number; the load compares it with 3.

## Model

| member | source | states |
|---|---|---|
| Scenes.App.constructor | src/App.tsx:9 | the page starts on the landing section |
| Scenes.App.HandleNext | src/App.tsx:19-21 | the current section becomes exactly the target, whatever it was before, with no legality check |
| Scenes.Rendered | src/App.tsx:88-451 | exactly one of the five guarded blocks renders: the one whose section equals the current one |
| Scenes.App.Advance | src/App.tsx:89-593 | each section's own control (enter, the buttons, the riddle's completion) moves to its successor |
| Scenes.CycleFromLanding | src/App.tsx:89-593 | from landing the controls visit memory, wishes, game and letter in that order, and the fifth transition returns to landing |
| Scenes.FollowPeriodic | src/App.tsx:89-593 | from any section, five more transitions lead back to the same place |
| Text.Trim | src/components/PuzzleGame.tsx:23 | trim removes exactly the white space at both ends; the result is empty iff the input is all white space |
| Text.ToLower | src/components/PuzzleGame.tsx:23-24 | `toLowerCase` maps each character to its lower-case form, keeps the length, and leaves no ASCII capital |
| Text.ToUpper | src/components/SecretGame.tsx:48 | `toUpperCase` maps each character to its upper-case form, keeps the length, and leaves no ASCII lower-case letter |
| Text.Contains | src/components/PuzzleGame.tsx:26 | `includes` can hold only when the substring is no longer than the string |
| Text.ContainsIff | src/components/PuzzleGame.tsx:26 | `includes` holds iff the substring occurs at some position |
| Text.ToLowerKeepsSpaces | src/components/PuzzleGame.tsx:23 | lower-casing neither creates nor removes white space, so a guess is all white space iff its lower-cased form is |
| Text.UpperMatchIff | src/components/SecretGame.tsx:48 | an upper-cased string equals an all-capitals word iff it spells that word letter by letter in either case |
| Riddle.Normalize | src/components/PuzzleGame.tsx:23 | the compared guess is the lower-cased guess with the white space at both ends removed: a slice of it, surrounded only by white space, starting and ending with a non-space; it is empty iff the guess is all white space, and has no ASCII capital |
| Riddle.IsCorrect | src/components/PuzzleGame.tsx:23-26 | an accepted guess is, once normalised, at least as long as the answer |
| Riddle.CorrectIffContainsAnswer | src/components/PuzzleGame.tsx:22-26 | a guess is accepted iff "candles" occurs in the lower-cased, trimmed guess; the equality test adds nothing |
| Riddle.AcceptsExactAnswer | src/components/PuzzleGame.tsx:23-26 | "candles" is accepted |
| Riddle.AcceptsCapitalisedPadded | src/components/PuzzleGame.tsx:23-26 | "Candles " is accepted |
| Riddle.AcceptsAnswerInSentence | src/components/PuzzleGame.tsx:23-26 | "the candles are lit" is accepted (the loose match) |
| Riddle.RefusesCake | src/components/PuzzleGame.tsx:23-26 | "cake" is refused |
| Riddle.HintIndexBounds | src/components/PuzzleGame.tsx:33-35 | the hint index stays within the three hints and is at least 1 from the second wrong guess on |
| Riddle.RiddleGame.constructor | src/components/PuzzleGame.tsx:9-13 | empty input, not solved, no hint, no attempts, hint index 0 |
| Riddle.RiddleGame.SetUserAnswer | src/components/PuzzleGame.tsx:206 | typing replaces the input and nothing else |
| Riddle.RiddleGame.HandleSubmit | src/components/PuzzleGame.tsx:22-40 | a correct guess sets `isCorrect` and leaves the rest unchanged; a wrong one adds one attempt and clears the input; from the second wrong guess on the hint shows and its index becomes min(index+1, 2); the hint fields keep matching the number of wrong guesses |
| Riddle.RiddleGame.DisplayedHint | src/components/PuzzleGame.tsx:185-199 | a hint shows iff there were at least two wrong guesses, and it is never `hints[0]` |
| Riddle.RiddleGame.ShowsTryAgain | src/components/PuzzleGame.tsx:270 | "Try again" shows iff there was exactly one wrong guess |
| Riddle.SampleSession | src/components/PuzzleGame.tsx:22-40 | after two wrong guesses and "Candles " the game is solved, with `hints[1]` showing |
| Secret.WordAccepted | src/components/SecretGame.tsx:48 | an accepted input has exactly as many characters as "SNEHA" |
| Secret.WordAcceptedIff | src/components/SecretGame.tsx:47-48 | the word is accepted iff it is "SNEHA" in any mix of cases, so it always has five characters |
| Secret.PaddedWordRefused | src/components/SecretGame.tsx:48 | the input is not trimmed: " sneha" is refused |
| Secret.WinningDateOffered | src/components/SecretGame.tsx:21 | 17 is one of the six balloon numbers, so the game can be completed |
| Secret.ScrambleIsPermutation | src/components/SecretGame.tsx:18-19 | the scrambled letters are a rearrangement of the name |
| Secret.SecretGame.constructor | src/components/SecretGame.tsx:12-31 | step 1, no heart, no date, no pending timer; complete iff the stored progress is 3 |
| Secret.SecretGame.HandleHeartClick | src/components/SecretGame.tsx:33-45 | the heart is found and a move to step 2 is scheduled |
| Secret.SecretGame.SetWordInput | src/components/SecretGame.tsx:205 | typing replaces the word input and nothing else |
| Secret.SecretGame.CheckWord | src/components/SecretGame.tsx:47-59 | a move to step 3 is scheduled iff the upper-cased input is "SNEHA"; otherwise nothing changes |
| Secret.SecretGame.CheckEnabled | src/components/SecretGame.tsx:206-213 | the button is enabled iff the input has five characters, which never blocks an accepted word; Enter calls `CheckWord`, which has no length condition, whatever the length |
| Secret.SecretGame.HandleDateSelect | src/components/SecretGame.tsx:61-78 | any number is remembered; only 17 sets `isComplete`, stores `{completedStep: 3}` and schedules completion |
| Secret.SecretGame.FireTimer | src/components/SecretGame.tsx:42-77 | the earliest callback fires; `step` never decreases and stays in 1..3, `isComplete` never reverts |
| Secret.PlayThrough | src/components/SecretGame.tsx:33-78 | heart, "sneha" and 17 lead to step 3, completion and stored progress 3 |
| WishList.Counter | src/components/WishesConfetti.tsx:172-179 | the counter shows iff the list is non-empty, with the list's length, and says "wishes" iff the length is not 1 |
| WishList.SendEnabled | src/components/WishesConfetti.tsx:165 | the send button is enabled iff the input is not all white space |
| WishList.WishesConfetti.constructor | src/components/WishesConfetti.tsx:12-21 | the list is the stored one, or empty when nothing is stored |
| WishList.WishesConfetti.SetWish | src/components/WishesConfetti.tsx:158 | typing replaces the input and nothing else |
| WishList.WishesConfetti.HandleSendWish | src/components/WishesConfetti.tsx:55-75 | white-space-only input changes nothing; otherwise the untrimmed wish is appended, the store holds the new list, the input is cleared and the wish floats |
| WishList.WishesConfetti.HideTimerFires | src/components/WishesConfetti.tsx:73-75 | the floating wish is hidden; the list is untouched |
| WishList.SampleSession | src/components/WishesConfetti.tsx:13-64 | "   " is refused, "Have fun!" is stored, and a fresh collector loads it back with the counter "1 wish" |
| Letter.NextIndex | src/components/PersonalLetter.tsx:79-83 | Next moves forward by one iff not at the last section, and the index stays in [0, 2] |
| Letter.PrevIndex | src/components/PersonalLetter.tsx:85-89 | Previous moves back by one iff not at the first section, and the index stays in [0, 2] |
| Letter.PrevDisabled | src/components/PersonalLetter.tsx:277 | Previous is disabled exactly where it would do nothing (index 0) |
| Letter.NextDisabled | src/components/PersonalLetter.tsx:285 | Next is disabled exactly where it would do nothing (index 2) |
| Letter.NavigationRoundTrip | src/components/PersonalLetter.tsx:79-89 | Previous undoes a Next that moved, and the other way round |
| Letter.NextTimesSaturates | src/components/PersonalLetter.tsx:79-83 | n presses of Next from the start reach min(n, 2) |
| Letter.Displayed | src/components/PersonalLetter.tsx:64-68 | the typed text is always a prefix of the letter, one character shorter than the counter |
| Letter.PersonalLetter.constructor | src/components/PersonalLetter.tsx:8-11 | nothing typed, no heart, first section, typewriter running |
| Letter.PersonalLetter.Tick | src/components/PersonalLetter.tsx:64-73 | within the text a tick shows the next prefix; past it the typewriter stops with the whole letter shown, the heart visible and the reveal scheduled; the extra sections stay as they were |
| Letter.PersonalLetter.RunTypewriter | src/components/PersonalLetter.tsx:64-74 | the interval ends with the whole letter displayed and the heart shown; if it was running, the reveal is pending and the extra sections are still hidden |
| Letter.PersonalLetter.RevealTimerFires | src/components/PersonalLetter.tsx:72 | the extra sections appear |
| Letter.PersonalLetter.NextSection | src/components/PersonalLetter.tsx:79-83 | the section index becomes `NextIndex` of the old one; nothing else changes |
| Letter.PersonalLetter.PrevSection | src/components/PersonalLetter.tsx:85-89 | the section index becomes `PrevIndex` of the old one; nothing else changes |
| Storage.GetWishes | src/utils/storage.ts:14-17 | the stored list, or the empty list when the key is absent |
| Storage.GetPuzzleProgress | src/utils/storage.ts:23-30 | the stored `completedStep`, or 0 when the key is absent |
| Storage.HasVisited | src/utils/storage.ts:32-34 | true only when the key holds exactly the text "true"; false when absent |
| Storage.GetMuted | src/hooks/useSound.ts:4-7 | the stored flag, or muted when the key is absent |
| Storage.KeysDistinct | src/utils/storage.ts:1-6 | the four keys are pairwise distinct |
| Storage.EmptyStoreDefaults | src/utils/storage.ts:14-34 | with nothing stored: no wishes, progress 0, not visited, muted |
| Storage.AfterSaveWish | src/utils/storage.ts:8-17 | after `saveWish(w)` the wish list reads as before plus `w`; the other records are unchanged |
| Storage.SaveWish | src/utils/storage.ts:8-12 | fetch, push and write back produce exactly that store |
| Storage.SaveWishesRoundTrip | src/utils/storage.ts:8-17 | saving wishes one by one reads back as the stored list followed by those wishes |
| Storage.AfterSavePuzzleProgress | src/utils/storage.ts:19-30 | after `savePuzzleProgress(s)` the progress reads as `s`; the other records are unchanged |
| Storage.SavePuzzleProgress | src/utils/storage.ts:19-21 | the write produces exactly that store |
| Storage.AfterMarkAsVisited | src/utils/storage.ts:32-38 | after `markAsVisited()` the page counts as visited; the other records are unchanged |
| Storage.MarkAsVisited | src/utils/storage.ts:36-38 | the write produces exactly that store |
| Storage.AfterSaveMuted | src/hooks/useSound.ts:11-13 | after persisting the flag the stored flag reads back as written; the other records are unchanged |
| Sound.SoundHook.constructor | src/hooks/useSound.ts:4-13 | the flag is the stored one, or muted when absent, and the mount effect writes it back |
| Sound.SoundHook.ToggleMute | src/hooks/useSound.ts:76-78 | the flag flips and the store holds the new value |
| Sound.SoundHook.Play | src/hooks/useSound.ts:16-26 | nothing is emitted when muted or disabled, or when no audio context can be made; otherwise the cue is emitted |
| Sound.SoundHook.PlayClick | src/hooks/useSound.ts:15-42 | the click cue, under the same guards |
| Sound.SoundHook.PlaySuccess | src/hooks/useSound.ts:44-74 | the success cue, under the same guards |
| Sound.SampleSession | src/hooks/useSound.ts:4-78 | a fresh page is muted and silent; unmuting without an audio context stays silent, with one it clicks; toggling twice restores the stored flag |

## Left out

- Animation, styling, layout, random positions, gradients and the mobile-width resize listener of `src/App.tsx` are presentational and hold no state the model needs.
- `canvas-confetti` bursts have no observable state.
- Timer durations are not modelled. Each delayed callback is an event that the caller fires.
- Unmount clean-up (`clearInterval`, `clearTimeout`) is not modelled. Neither is a callback firing after its component has gone.
- The oscillator frequencies and gain ramps of the two cues are floating-point Web Audio calls. A cue is recorded only by its name.
- JSON serialisation is not modelled. Stored values are typed, and the visited flag is the raw text "true".
- Text.ToLower: maps only the ASCII letters, not JavaScript's full Unicode case mapping (for example U+017F LATIN SMALL LETTER LONG S upper-cases to "S" in JavaScript).
- Text.ToUpper: maps only the ASCII letters, for the same reason.
- Secret.SecretGame.CheckEnabled: compares the length in Unicode scalar values, while JavaScript's `length` counts UTF-16 code units, so input with characters outside the Basic Multilingual Plane can differ.
- Letter.Displayed: counts Unicode scalar values, while JavaScript slices UTF-16 code units, so the final emoji is one step here and two there.
- `src/components/Landing.tsx`, `SimpleLanding.tsx`, `LiquidButton.tsx`, `MemoryLane.tsx`, `AudioControl.tsx` and `TestLanding.tsx` are not part of this model. They are presentational or only forward a callback.
- The riddle's 2-second delay before its completion callback is not modelled. `HandleSubmit` returns whether the guess was correct, and the page then calls `Scenes.App.HandleNext(Letter)`.
