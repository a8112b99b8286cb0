# Social Sphere front-end state rules, in Dafny

Social Sphere is a React front end for a community/DAO social platform. Almost all of
it is markup. This project models the few parts that hold behaviour:

- **Onboarding wizard**, in two variants. The animated modal keeps a step index, an
  open flag and a `[page, direction]` pair for its slide animation. The plain modal
  keeps only the step and the open flag. Next advances, or closes the modal on the
  last slide. Back retreats, or does nothing on the first slide. Close hides the
  modal.
- **Highlighted-votes carousel.** A start index slides over the votes, with one or
  three cards visible depending on the viewport width.
- **Post reactions and comments.** Like and dislike counters are driven by the
  user's current reaction. A comment thread is fed from a draft text box.
- **Button class names.** The `cn` combiner, the variant and size tables, and the
  combined class of a rendered button.
- **Sign-in session rules.** A username is checked before connecting a wallet.
  A session is saved to session storage, and also to local storage when "remember
  me" is ticked. Disconnecting clears both stores. On mount a saved session is
  restored.

Each stateful component is a `class` whose fields are the component's state hooks.
Its handlers are methods. Each method is proved to produce exactly the state given by
a pure transition function of the same module, or by `ensures` clauses that give
every field. The properties are proved about those
functions: invariants kept under any sequence of events, inverses, scenarios, and
round trips across a reload. Pure code (the class-name helpers) is functions and
lemmas only.

Files: `primitives.dfy` (optional values, JavaScript `trim`), `onboarding.dfy` (the
slides and the screen both modals draw), `animated_intro_modal.dfy`,
`shared_intro_modal.dfy`, `votes_carousel.dfy`, `post_form.dfy`, `button.dfy`,
`login_session.dfy`.

Two points about the code itself:

- The modal handlers never look at `isOpen`. A closed modal renders nothing, so none
  of its buttons can be pressed. The model's `Next`, `Back` and `Close` are the
  handlers as written, and `Onboarding.View` states that nothing is rendered while
  the modal is closed.
- The carousel code does not clamp its start index. The invariant `Valid` of
  `VotesCarousel.HighlightedVotesCarousel` proves that the index stays within the
  four votes, with one or three visible. A resize can still leave the index past
  the last full window.

## Model

| member | source | states |
|---|---|---|
| `Primitives.OrDefault` | src/app/pages/Log-InPage/LogInPage.tsx:29 | `value \|\| default`: a present, non-empty string is kept; an absent or empty one gives the default |
| `Primitives.TrimStart` | src/components/post-form.tsx:56 | the result is a suffix of the input, everything dropped is white space, and it does not start with white space |
| `Primitives.TrimEnd` | src/components/post-form.tsx:56 | the result is a prefix of the input, everything dropped is white space, and it does not end with white space |
| `Primitives.Trim` | src/components/post-form.tsx:56 | `s.trim()` is the piece of `s` between a blank prefix and a blank suffix, and it neither starts nor ends with white space |
| `Primitives.TrimEmptyIffBlank` | src/app/pages/Log-InPage/LogInPage.tsx:81 | `s.trim()` is empty (falsy) exactly when every character of `s` is white space |
| `Onboarding.ScreenAt` | src/components/introduction-modal.tsx:130-195 | the screen shows slide `step` with dot `step` highlighted; Back is disabled exactly on step 0; the label is "Finish" exactly on the last step and "Continue" otherwise |
| `Onboarding.View` | src/app/shared/components/introduction-modal.tsx:49 | nothing is rendered exactly when the modal is closed; otherwise the current step's screen |
| `AnimatedIntroModal.Next` | src/components/introduction-modal.tsx:55-62 | below the last step: step and page go up by one, direction becomes 1, open flag unchanged; on the last step: the modal closes and step, page, direction are unchanged; validity (step in range, page = step) is kept |
| `AnimatedIntroModal.Back` | src/components/introduction-modal.tsx:64-69 | at step 0 nothing changes; otherwise step and page go down by one, direction becomes -1, open flag unchanged; validity is kept |
| `AnimatedIntroModal.Close` | src/components/introduction-modal.tsx:71-73 | the modal closes; step, page and direction are unchanged |
| `AnimatedIntroModal.Run` | src/components/introduction-modal.tsx:51-73 | from a valid state (such as the mounted state: step 0, page 0, direction 0), any sequence of handlers keeps step within 0..2 with page = step; a closed modal stays closed |
| `AnimatedIntroModal.RepeatedNext` | src/components/introduction-modal.tsx:55-62 | n presses of Next reach step min(step + n, last) and leave the modal open exactly when they do not go past the last step |
| `AnimatedIntroModal.ThirdNextFinishes` | src/components/introduction-modal.tsx:7-62 | with the three slides an open modal is still open after two Nexts; the third closes it at step 2, page 2 |
| `AnimatedIntroModal.NextUndoesBack` | src/components/introduction-modal.tsx:55-69 | Back then Next from an inner step returns to the same step and page |
| `AnimatedIntroModal.IntroductionModal.constructor` | src/components/introduction-modal.tsx:50-53 | mounts at step 0, page 0, direction 0, open as `onOpen` says |
| `AnimatedIntroModal.IntroductionModal.HandleNext` | src/components/introduction-modal.tsx:55-62 | the fields become `Next` of the old state |
| `AnimatedIntroModal.IntroductionModal.HandleBack` | src/components/introduction-modal.tsx:64-69 | the fields become `Back` of the old state |
| `AnimatedIntroModal.IntroductionModal.HandleClose` | src/components/introduction-modal.tsx:71-73 | the fields become `Close` of the old state |
| `SharedIntroModal.Next` | src/app/shared/components/introduction-modal.tsx:31-37 | below the last step: step goes up by exactly one and the open flag is kept; on the last step: the modal closes and step is unchanged |
| `SharedIntroModal.Back` | src/app/shared/components/introduction-modal.tsx:39-43 | at step 0 nothing changes; otherwise step goes down by one |
| `SharedIntroModal.Close` | src/app/shared/components/introduction-modal.tsx:45-47 | the modal closes without touching the step |
| `SharedIntroModal.Run` | src/app/shared/components/introduction-modal.tsx:31-47 | any sequence of handlers keeps a valid step valid; nothing reopens a closed modal |
| `SharedIntroModal.StepAlwaysOnSlide` | src/app/shared/components/introduction-modal.tsx:6-47 | from the mounted state, the step stays within 0..2 under any sequence of Next, Back and close |
| `SharedIntroModal.NextUndoesBack` | src/app/shared/components/introduction-modal.tsx:31-43 | for every step s > 0, Back then Next returns to s |
| `SharedIntroModal.IntroductionModal.constructor` | src/app/shared/components/introduction-modal.tsx:27-29 | mounts at step 0, open as `onOpen` says |
| `SharedIntroModal.IntroductionModal.HandleNext` | src/app/shared/components/introduction-modal.tsx:31-37 | the fields become `Next` of the old state |
| `SharedIntroModal.IntroductionModal.HandleBack` | src/app/shared/components/introduction-modal.tsx:39-43 | the fields become `Back` of the old state |
| `SharedIntroModal.IntroductionModal.HandleClose` | src/app/shared/components/introduction-modal.tsx:45-47 | the fields become `Close` of the old state |
| `VotesCarousel.SlidesFor` | src/components/highlighted-votes-carousel.tsx:19-21 | three cards exactly when the width is at least 768, one card exactly when it is below |
| `VotesCarousel.NextIndex` | src/components/highlighted-votes-carousel.tsx:29-33 | prevIndex+1 while that is at most N−k, otherwise 0; when N ≥ k and prevIndex ≥ −1 (every reachable index is at least 0), the result is within 0..N−k |
| `VotesCarousel.PrevIndex` | src/components/highlighted-votes-carousel.tsx:35-39 | prevIndex−1 while that is at least 0, otherwise N−k; an index within 0..N−k stays within it |
| `VotesCarousel.NextUndoesPrev` | src/components/highlighted-votes-carousel.tsx:29-39 | for 0 < i ≤ N−k, Next after Prev returns to i |
| `VotesCarousel.PrevUndoesNext` | src/components/highlighted-votes-carousel.tsx:29-39 | for 0 ≤ i < N−k, Prev after Next returns to i |
| `VotesCarousel.PrevButtonShown` | src/components/highlighted-votes-carousel.tsx:71 | the previous button is rendered exactly when currentIndex > 0 |
| `VotesCarousel.PrevButtonNeverWraps` | src/components/highlighted-votes-carousel.tsx:71-78 | the previous button is shown only when currentIndex > 0, and then pressing it steps back by one without wrapping |
| `VotesCarousel.SampleWalk` | src/components/highlighted-votes-carousel.tsx:7-39 | with the four sample votes and three visible: Next from 0 gives 1, Next again wraps to 0, Prev from 0 gives 1 |
| `VotesCarousel.HighlightedVotesCarousel.constructor` | src/components/highlighted-votes-carousel.tsx:15-16 | starts at index 0 with three cards |
| `VotesCarousel.HighlightedVotesCarousel.UpdateSlidesToShow` | src/components/highlighted-votes-carousel.tsx:18-27 | a resize sets only the card count, to `SlidesFor(width)`; the index is unchanged and stays a valid vote index |
| `VotesCarousel.HighlightedVotesCarousel.HandleNext` | src/components/highlighted-votes-carousel.tsx:29-33 | the index becomes `NextIndex` of the old one; the card count is unchanged; the index stays within the four votes |
| `VotesCarousel.HighlightedVotesCarousel.HandlePrev` | src/components/highlighted-votes-carousel.tsx:35-39 | the index becomes `PrevIndex` of the old one; the card count is unchanged; the index stays within the four votes |
| `PostForm.React` | src/components/post-form.tsx:39-53 | pressing the active reaction clears it and decrements only its counter; pressing another one records it, increments its counter and decrements the previous reaction's counter, if any; consistency of counters with the reaction is kept |
| `PostForm.ReactAll` | src/components/post-form.tsx:39-53 | any sequence of presses keeps each counter equal to 1 exactly when it is the current reaction, 0 otherwise |
| `PostForm.ReactionsFromStart` | src/components/post-form.tsx:30-53 | from likes = dislikes = 0 with no reaction, after any presses: likes = 1 iff the reaction is like, dislikes = 1 iff it is dislike, counts in 0..1 and never both 1 |
| `PostForm.ReactTwiceRestores` | src/components/post-form.tsx:39-53 | from no reaction, pressing the same reaction twice restores the original counters and reaction |
| `PostForm.PostComponent.constructor` | src/components/post-form.tsx:30-37 | no counts, no reaction, no comments, empty draft, `showComments` false |
| `PostForm.PostComponent.HandleReaction` | src/components/post-form.tsx:39-53 | the counters and reaction become `React` of the old ones; comments, draft and visibility are unchanged |
| `PostForm.PostComponent.SetNewComment` | src/components/post-form.tsx:117 | the draft becomes the typed text; nothing else changes |
| `PostForm.PostComponent.HandleComment` | src/components/post-form.tsx:55-66 | a blank draft leaves comments and draft unchanged; otherwise exactly one comment, with the untrimmed draft, user "Default User" and the given id and time, is put in front of the existing comments, which keep their order, and the draft is cleared, so the count badge grows by one |
| `PostForm.PostComponent.ToggleComments` | src/components/post-form.tsx:174 | the comments button flips `showComments` and nothing else; the page never reads that flag, so the thread is always shown |
| `ButtonStyles.VariantClasses` | src/components/button.tsx:6-17 | every variant maps to a non-empty class string |
| `ButtonStyles.SizeClasses` | src/components/button.tsx:18-24 | every size maps to a non-empty class string |
| `ButtonStyles.Present` | src/components/button.tsx:35 | `filter(Boolean)` keeps only non-empty strings, at most as many as given, and is empty exactly when no argument is truthy |
| `ButtonStyles.JoinWithSpaces` | src/components/button.tsx:35 | the join of a non-empty list is at least as long as its first element |
| `ButtonStyles.Cn` | src/components/button.tsx:34-36 | `cn` is the empty string exactly when every argument is undefined or empty |
| `ButtonStyles.PresentAppend` | src/components/button.tsx:35 | filtering keeps the arguments' order: it distributes over concatenation |
| `ButtonStyles.JoinAppend` | src/components/button.tsx:35 | joining two lists puts exactly one space between the two joins when both are non-empty |
| `ButtonStyles.CnSingle` | src/components/button.tsx:35 | `cn` of one argument is that string when truthy and "" otherwise |
| `ButtonStyles.CnAppend` | src/components/button.tsx:35 | `cn(a ++ b)` is `cn(a)`, one space when both sides kept something, then `cn(b)`: kept arguments stay in order, separated by single spaces |
| `ButtonStyles.CnSnoc` | src/components/button.tsx:35 | adding one argument appends its string after a single space, or nothing when it is falsy |
| `ButtonStyles.CombinedIsOrdered` | src/components/button.tsx:43-50 | `cn` of five non-empty strings and a last one joins them in order with single spaces, dropping only an empty last one |
| `ButtonStyles.CombinedClassName` | src/components/button.tsx:38-50 | the class is the three base groups, the variant's classes (default "default"), the size's classes (default "sm"), then the caller's className (default ""), in that order, each separated by one space; only an empty className drops out |
| `LogInSession.HasSession` | src/app/pages/Log-InPage/LogInPage.tsx:26-27 | `getItem("starknetSession")` is truthy: an item is stored under the key and it is not the empty string |
| `LogInSession.Usable` | src/app/pages/Log-InPage/LogInPage.tsx:97 | a connect result is usable when it resolved to a connection with a wallet and a non-empty account |
| `LogInSession.AccountOf` | src/app/pages/Log-InPage/LogInPage.tsx:97-104 | the account of a usable connection is non-empty and is the connection's account |
| `LogInSession.WalletNameOf` | src/app/pages/Log-InPage/LogInPage.tsx:105 | the wallet's own name when it has a non-empty one, otherwise "Starknet Wallet"; never empty |
| `LogInSession.SaveSessionTo` | src/app/pages/Log-InPage/LogInPage.tsx:140-147 | {username, walletAddress} always goes to session storage, and to local storage only when rememberMe is true; nothing else changes |
| `LogInSession.BeginConnect` | src/app/pages/Log-InPage/LogInPage.tsx:81-87 | a blank username only sets the error "Please enter a username before connecting your wallet"; otherwise the error is cleared and isConnecting is set |
| `LogInSession.Connect` | src/app/pages/Log-InPage/LogInPage.tsx:80-122 | blank username: only the error is set and no connection is attempted. Otherwise isConnecting is false afterwards. A thrown error sets its message or "Failed to connect wallet"; a rejection with `null` or `undefined` leaves the error cleared. A missing wallet or account sets "No wallet connection established" and leaves the wallet disconnected. Success sets the address, the name, connected and displayUsername, then saves the session |
| `LogInSession.FinishConnect` | src/app/pages/Log-InPage/LogInPage.tsx:89-121 | after the awaited `connect`: isConnecting is false in every outcome; a throw sets its message or "Failed to connect wallet"; a rejection without a value only clears isConnecting, since reading its `message` fails inside the `catch`; an unusable result sets "No wallet connection established"; a usable one sets address, name, connected and displayUsername and saves the session; nothing else changes |
| `LogInSession.Disconnect` | src/app/pages/Log-InPage/LogInPage.tsx:125-137 | on success, address and name are cleared, connected is false and the key is removed from both stores, with nothing else changed; if disconnect throws, nothing changes |
| `LogInSession.SavedItem` | src/app/pages/Log-InPage/LogInPage.tsx:26-49 | the local item is read when there is one; only otherwise the session item |
| `LogInSession.Restore` | src/app/pages/Log-InPage/LogInPage.tsx:28-45 | an unreadable item changes nothing; a record restores the username (and ticks remember me for a local one); when the reconnection is usable and its account equals the saved address, the wallet becomes connected with that address and the wallet name; otherwise every other field keeps its value |
| `LogInSession.RestoreSession` | src/app/pages/Log-InPage/LogInPage.tsx:23-74 | stores are not written; local storage takes precedence; only a local session sets rememberMe; when the reconnection is usable and its account equals the saved walletAddress, the wallet is marked connected with that address and the wallet name; otherwise only username and rememberMe change |
| `LogInSession.RememberedSessionRestores` | src/app/pages/Log-InPage/LogInPage.tsx:26-46 | after a remembered sign-in, a reload that reconnects to the same account restores the username, remember-me and the connected wallet |
| `LogInSession.UnrememberedSessionRestores` | src/app/pages/Log-InPage/LogInPage.tsx:47-69 | after a sign-in without remember-me (and nothing in local storage), a reload restores from session storage and leaves remember-me unticked |
| `LogInSession.DisconnectForgetsSession` | src/app/pages/Log-InPage/LogInPage.tsx:125-137 | after a successful disconnect, a reload restores nothing |
| `LogInSession.LogInPage.constructor` | src/app/pages/Log-InPage/LogInPage.tsx:9-19 | all state hooks start empty or false; the stores are given |
| `LogInSession.LogInPage.CheckExistingSession` | src/app/pages/Log-InPage/LogInPage.tsx:23-74 | the fields become `RestoreSession` of the old state |
| `LogInSession.LogInPage.SetUsername` | src/app/pages/Log-InPage/LogInPage.tsx:173 | only the username changes |
| `LogInSession.LogInPage.SetRememberMe` | src/app/pages/Log-InPage/LogInPage.tsx:208 | only rememberMe changes |
| `LogInSession.LogInPage.SaveSession` | src/app/pages/Log-InPage/LogInPage.tsx:140-147 | the stores become `SaveSessionTo` of the old state |
| `LogInSession.LogInPage.HandleWalletConnect` | src/app/pages/Log-InPage/LogInPage.tsx:80-122 | the fields become `Connect` of the old state and the connect outcome |
| `LogInSession.LogInPage.CompleteConnect` | src/app/pages/Log-InPage/LogInPage.tsx:89-121 | the part after the awaited `connect`, including the `finally`, as one step |
| `LogInSession.LogInPage.HandleDisconnect` | src/app/pages/Log-InPage/LogInPage.tsx:125-137 | the fields become `Disconnect` of the old state |

## Left out

- Rendering and layout, images, the framer-motion variants, and the swipe power and
  threshold of the animated modal. These are markup, assets and floating point. A swipe
  calls the same `handleNext`/`handleBack` as the buttons, and those are modelled.
- The carousel's `translateX` and width percentages. These are floating-point
  presentation. Registering and removing the resize listener is also left out:
  `UpdateSlidesToShow` is the listener itself.
- `handleShare` and `navigator.share`. This is a browser API with no state of the
  component behind it.
- The clock behind a comment's id and timestamp. Both are parameters of
  `HandleComment`.
- The `Slot` or `"button"` choice and ref forwarding in the button. These belong to a
  foreign component library.
- The StarknetKit SDK. `connect` and `disconnect` are inputs to the model: what the
  call returned or whether it threw.
- The browser stores. They are modelled as maps from key to parsed item. `JSON.parse`
  is modelled by that item's shape: a record, unreadable text, or the empty string.
  A stored field of a non-string JSON type is not modelled. Console logging is not
  modelled.
- LogInSession.RestoreSession: the mount check runs as one step. In the code it is
  started without being awaited. It sets the username and remember-me, then awaits
  `connect` while the page stays interactive. Edits and a wallet connection made by
  the user during that wait are not interleaved in the model.
- LogInSession.Connect: modelled as one step, so the user cannot edit the username or
  remember-me while `connect` is awaited. The code uses the values captured when the
  button was clicked. `BeginConnect` gives the state the page shows during the await.
  A storage write that throws inside `saveSession` is not modelled.
- JavaScript numbers are unbounded integers here. The counters and indices never come
  near 2^53.
