# BrightFeed core, modelled in Dafny

BrightFeed is a news reader. Its front end is React and its two small back ends are Flask servers over
a MongoDB collection of scraped articles. Almost all of the repository is view code, but under the JSX
there are small pieces of logic that can be stated exactly. This project models those pieces and proves
what they promise:

- **The preferences store** (`src/contexts/PreferencesContext.js`), module `Preferences`: the default
  record, single- and multi-key updates, reset, set-like toggling of list-valued settings and the
  category helpers built on it, and the load/save effects against browser storage. The provider is
  the class `Preferences.Provider`; each update applies a pure function of the old record.
- **The preferences editor's save state machine** (`UserPreferencesTestable` in
  `src/UserPreferences.e2e.test.js` and its `forwardRef` twin in `src/UserPreferences.test.js`),
  module `PreferencesEditor`: the dirty flag, the save status (`null`, `saving`, `success`, `error`),
  the storage write, and the `setTimeout` callbacks. The callbacks are an explicit list of pending
  timers, and any one of them may fire next.
- **Comments and likes**:
  - `Comments` covers `CommentsSection` and `CommentItem`: like routing by id for comments and
    replies, adding a comment, the count label, the reply nesting rule and the item's view flags.
  - `CommentFormModel` covers `CommentForm`: the blank-text guard, the trimmed delivery after the
    simulated delay, the keyboard shortcuts, the enable rule and the 500-unit counter, which counts
    UTF-16 code units as JavaScript's `length` does.
  - `ArticleFeedback` covers `LikeCommentSection`: the token guards, the like/unlike request, the
    comment add and delete updates, and delete-button visibility.
  - `RelativeTime` covers the bucketing shared by `formatTime` and `formatDate`.
- **Article filtering and sentiment**:
  - `Articles` holds the shared predicates: case-insensitive category and headline matching, and the
    three tones split at ±0.05 of the compound score.
  - `NewsPageModel` covers `NewsPage`: the fetch filters, `filterBySentiment`, paging and the
    three-card window.
  - `SentimentGraphModel` covers `SentimentGraph`: the category filter, the counting loop, the
    majority insight and the zero-guarded percentage.
- **Record normalisation in the two servers**:
  - `NewsApi` models `server.py`: per-field fallbacks, and a loop that skips documents whose
    processing raises.
  - `BackendApi` models `backend/server.py`: one comprehension, so a single bad document fails
    the whole request.
  - `Documents` holds the Python values, truthiness and `dict.get` that both rely on.
- **Circular navigation** of the early front end (`brightfeed/src/App.js`), module `Carousel`:
  JavaScript's truncating `%`, next and previous with wrap-around, and the non-empty render guard.

Shared helpers:
- `Seqs` holds `Filter`, the order-keeping subsequence relation and their lemmas.
- `Text` holds ASCII lower-casing, substring search, trimming, decimal rendering and the UTF-16
  length.
- `Wrappers` holds `Option`.

Behaviour the source has and a reader may not expect is modelled as written and proved as a
property:
- `NewsPage`'s Next with fewer than three articles leaves a negative index, and the window then
  counts from the end (`NewsPageModel.NextWithFewArticles`).
- Ctrl+Enter in `CommentForm` submits over-limit text (`CommentFormModel.OverLimitKeyboardSubmit`).
- Emoji count twice toward `CommentForm`'s limit (`CommentFormModel.EmojiOverLimit`).
- Signed out, Delete shows on every comment stored with a null email (`ArticleFeedback.DeleteVisible`).
- The editor's 500 ms timer clears the dirty flag even after an edit made during the save window
  (`PreferencesEditor.EditDuringSaveWindow`).
- A refetch in `NewsPage` keeps the old tone selection while the list is no longer narrowed by it.

## Model

| member | source | states |
|---|---|---|
| Preferences.Defaults | src/contexts/PreferencesContext.js:13-42 | the default record has exactly the nineteen settings |
| Preferences.DefaultsValues | src/contexts/PreferencesContext.js:15-22 | ten articles per page; the category and keyword lists start empty |
| Preferences.Update | src/contexts/PreferencesContext.js:74-79 | the named key takes the value; the key set grows by that key only; every other key keeps its value |
| Preferences.Merge | src/contexts/PreferencesContext.js:81-86 | exactly the keys of the update are overwritten; all other keys are kept |
| Preferences.ToggleItem | src/contexts/PreferencesContext.js:95-97 | the value is in the result exactly when it was not in the list |
| Preferences.ToggleAbsentAppends | src/contexts/PreferencesContext.js:92-99 | toggling an absent value appends it at the end and leaves earlier elements unchanged |
| Preferences.TogglePresentRemovesAll | src/contexts/PreferencesContext.js:95-96 | toggling a present value removes every occurrence; other values keep their counts and order; the length drops by the count |
| Preferences.FilterLength | src/contexts/PreferencesContext.js:96 | removing every occurrence of a value shortens the list by the number of occurrences |
| Preferences.ToggleTwiceRestores | src/contexts/PreferencesContext.js:92-99 | toggling an initially absent value twice gives back the original list |
| Preferences.ToggleArray | src/contexts/PreferencesContext.js:92-99 | only the list under the key changes; the value's membership flips; keys are kept |
| Preferences.AddCategory | src/contexts/PreferencesContext.js:106-110 | the categories entry stays a list |
| Preferences.RemoveCategory | src/contexts/PreferencesContext.js:112-116 | the categories entry stays a list |
| Preferences.AddCategoryProperties | src/contexts/PreferencesContext.js:106-110 | after adding, the category is present, appended at the end if new, and adding again changes nothing |
| Preferences.RemoveCategoryProperties | src/contexts/PreferencesContext.js:112-116 | after removing, the category is absent; removing an absent category is a no-op; other settings are untouched |
| Preferences.AddThenRemoveRestores | src/contexts/PreferencesContext.js:106-116 | adding an absent category and then removing it restores the whole record |
| Preferences.LoadOver | src/contexts/PreferencesContext.js:49-61 | absent or empty storage keeps the base; unparsable text keeps the base and logs; stored keys override and missing keys keep their values |
| Preferences.Provider.constructor | src/contexts/PreferencesContext.js:45-46 | starts with the defaults and loading |
| Preferences.Provider.LoadEffect | src/contexts/PreferencesContext.js:49-61 | the record becomes the load outcome, an error is logged only for bad text, and loading ends either way |
| Preferences.Provider.SaveEffect | src/contexts/PreferencesContext.js:64-72 | nothing is written while loading; otherwise storage holds the record, or a failed write logs and keeps storage |
| Preferences.Provider.UpdatePreference | src/contexts/PreferencesContext.js:74-79 | the record becomes its single-key update |
| Preferences.Provider.UpdateMultiplePreferences | src/contexts/PreferencesContext.js:81-86 | the record becomes the merge with the updates |
| Preferences.Provider.ResetPreferences | src/contexts/PreferencesContext.js:88-90 | the record equals the defaults |
| Preferences.Provider.ToggleArrayPreference | src/contexts/PreferencesContext.js:92-99 | the record becomes the toggle of the list under the key |
| Preferences.Provider.IsPreferredCategory | src/contexts/PreferencesContext.js:102-104 | true exactly when the category is in the preferred list |
| Preferences.Provider.AddPreferredCategory | src/contexts/PreferencesContext.js:106-110 | the record becomes `AddCategory` of the old one |
| Preferences.Provider.RemovePreferredCategory | src/contexts/PreferencesContext.js:112-116 | the record becomes `RemoveCategory` of the old one |
| PreferencesEditor.EditorDefaults | src/UserPreferences.e2e.test.js:7-26 | the editor's defaults are the store's settings without `blockedKeywords` |
| PreferencesEditor.EditorDefaultsValues | src/UserPreferences.test.js:7-26 | ten articles per page, an empty category list and no keyword list |
| PreferencesEditor.SaveEnabled | src/UserPreferences.e2e.test.js:134 | Save is disabled without unsaved changes and while saving, and enabled otherwise |
| PreferencesEditor.SaveLabel | src/UserPreferences.e2e.test.js:141 | "Saving..." exactly while saving, "Saved!" exactly on success, "Save Changes" otherwise |
| PreferencesEditor.ErrorBanner | src/UserPreferences.e2e.test.js:147-150 | the failure text shows exactly in the error status |
| PreferencesEditor.Editor.constructor | src/UserPreferences.e2e.test.js:7-29 | defaults, clean, status `null`, no timers; every transient status has its timer (Valid) |
| PreferencesEditor.Editor.Mount | src/UserPreferences.test.js:34-44 | stored preferences are merged over the current ones; bad text keeps them and logs; the dirty flag is untouched |
| PreferencesEditor.Editor.HandleChange | src/UserPreferences.e2e.test.js:45-52 | only the given key changes; the form is dirty and the status cleared to `null` |
| PreferencesEditor.Editor.HandleSectionChange | src/UserPreferences.test.js:46-53 | the section argument is ignored: same effect as the two-argument change |
| PreferencesEditor.Editor.HandleArrayToggle | src/UserPreferences.e2e.test.js:54-63 | the list under the key is toggled; dirty, status `null` |
| PreferencesEditor.Editor.HandleSave | src/UserPreferences.e2e.test.js:65-80 | a good write stores the record, status saving, 500 ms timer pending; a throwing write gives error with a 3000 ms timer and leaves storage |
| PreferencesEditor.Editor.HandleReset | src/UserPreferences.e2e.test.js:82-106 | every default back, and the form dirty even if nothing had changed |
| PreferencesEditor.Editor.FireTimer | src/UserPreferences.e2e.test.js:70-78 | the 500 ms timer gives success, clears the dirty flag and schedules the 2000 ms timer; a clearing timer gives `null`; the invariant is kept |
| PreferencesEditor.Editor.View | src/UserPreferences.test.js:205-221 | Save enabled exactly when dirty and not saving; the label, the error banner, and the warning exactly when dirty |
| PreferencesEditor.FirstSaveJourney | src/UserPreferences.e2e.test.js:45-80 | from a clean editor, change, save and both timers: storage holds exactly the changed record, the form is clean, the status `null` and no timer pending |
| PreferencesEditor.CategoryJourney | src/UserPreferences.e2e.test.js:54-63 | from an empty category list, tech, science, then tech again leaves exactly `["science"]` and a dirty form |
| PreferencesEditor.FailedSaveJourney | src/UserPreferences.e2e.test.js:75-79 | a throwing write leaves the form dirty and storage untouched, and the 3000 ms timer returns the status to `null` |
| PreferencesEditor.EditDuringSaveWindow | src/UserPreferences.e2e.test.js:68-74 | an edit inside the 500 ms window is not stored, yet the form is marked clean |
| RelativeTime.Classify | src/components/CommentItem.js:11-22 | the buckets are disjoint and tried in order: under a minute (negative included), 1-59 whole minutes, 1-23 hours, 1-6 days, a week or more; each count is the floor |
| RelativeTime.Format | src/components/LikeCommentSection.js:140-153 | under a minute reads "Just now"; a week or more falls through to the locale date |
| RelativeTime.FormatParses | src/components/CommentItem.js:18-21 | below a week, the text reads back as exactly the bucket and count it was rendered from |
| RelativeTime.ClassifyMonotone | src/components/CommentItem.js:18-22 | an older timestamp never lands in a younger bucket |
| Comments.ToggleLike | src/components/CommentsSection.js:90-95 | the flag flips, likes minus the liked bit is invariant, nothing else changes |
| Comments.ToggleLikeTwice | src/components/CommentsSection.js:90-95 | toggling a like twice restores the record |
| Comments.LikeReplies | src/components/CommentsSection.js:79-88 | same length; exactly the replies with the id are toggled |
| Comments.LikeComments | src/components/CommentsSection.js:74-99 | same length and ids; a top-level target toggles its comment; a reply target maps only its parent's replies; every other comment is unchanged |
| Comments.LikeCommentsTwice | src/components/CommentsSection.js:74-99 | applying the same like twice restores the whole list |
| Comments.LikeRepliesTwice | src/components/CommentsSection.js:79-88 | toggling the same replies twice restores them |
| Comments.RenderThread | src/components/CommentItem.js:102-165 | a top-level item likes by its own id and offers Reply; each shown reply likes by (reply id, parent id) and has no Reply and no children |
| Comments.RenderList | src/components/CommentsSection.js:155-163 | one rendered thread per comment, in order |
| Comments.RenderDepth | src/components/CommentItem.js:107-136 | nesting depth is at most one and only top-level comments offer Reply |
| Comments.TopLevelLikeRouting | src/components/CommentsSection.js:159 | with unique ids, the like of rendered comment i toggles exactly comment i |
| Comments.ReplyLikeRouting | src/components/CommentItem.js:161 | with unique ids, the like of reply j under comment i toggles exactly that reply and nothing else |
| Comments.NewComment | src/components/CommentsSection.js:54-63 | the new record has the content, the given id and time, 0 likes, not liked, no replies |
| Comments.CountLabel | src/components/CommentsSection.js:129 | "Comment" exactly for one comment, "Comments" otherwise |
| Comments.MockComments | src/components/CommentsSection.js:15-46 | two demo comments, the first with one reply, all ids unique |
| Comments.RepliesLabel | src/components/CommentItem.js:148-151 | "Hide n replies" while shown, "Show n replies" while hidden |
| Comments.CommentsSection.constructor | src/components/CommentsSection.js:7-10 | empty list, 0 likes, not liked, form closed |
| Comments.CommentsSection.Load | src/components/CommentsSection.js:13-51 | the demo list, a like count in [20, 120) and the coin's like flag |
| Comments.CommentsSection.HandleLike | src/components/CommentsSection.js:69-72 | the article's flag flips and likes minus the liked bit is invariant |
| Comments.CommentsSection.HandleCommentLike | src/components/CommentsSection.js:74-99 | the list becomes `LikeComments` of the old list |
| Comments.CommentsSection.HandleAddComment | src/components/CommentsSection.js:53-67 | the new record goes first, the rest is the old list, and the form closes |
| Comments.CommentsSection.ToggleCommentForm | src/components/CommentsSection.js:120 | the form flag flips |
| Comments.CommentsSection.CancelCommentForm | src/components/CommentsSection.js:140 | the form closes |
| Comments.LikeJourney | src/components/CommentsSection.js:74-99 | liking the first demo comment twice restores the demo list |
| Comments.CommentItemView.constructor | src/components/CommentItem.js:5-8 | replies shown, reply form and options closed |
| Comments.CommentItemView.ToggleReplyForm | src/components/CommentItem.js:107-109 | only a top-level item toggles its reply form |
| Comments.CommentItemView.HandleReplySubmit | src/components/CommentItem.js:25-29 | submitting a reply closes the reply form |
| Comments.CommentItemView.ToggleReplies | src/components/CommentItem.js:138-140 | with more than one reply, the replies flag flips |
| Comments.CommentItemView.ToggleOptions | src/components/CommentItem.js:61 | the options flag flips |
| Comments.CommentItemView.CloseOptions | src/components/CommentItem.js:174-178 | the overlay click closes the options |
| Text.Utf16Length | src/components/CommentForm.js:75 | `comment.length` counts UTF-16 code units: between one and two per character |
| Text.Utf16LengthExtremes | src/components/CommentForm.js:82 | the length equals the character count exactly when no character is beyond the Basic Multilingual Plane, and twice it exactly when all are |
| CommentFormModel.CanSubmit | src/components/CommentForm.js:118 | an enabled button implies at most 500 characters and no submit in flight |
| CommentFormModel.OverLimit | src/components/CommentForm.js:75 | more than 500 characters are always over the limit, and 250 or fewer never are |
| CommentFormModel.Counter | src/components/CommentForm.js:82 | the counter ends in "/500" and its number reads back as the text's length in UTF-16 code units |
| CommentFormModel.CanSubmitMeans | src/components/CommentForm.js:118 | Submit is enabled exactly when the text is not blank, at most 500 code units long, and no submit runs |
| CommentFormModel.EmojiOverLimit | src/components/CommentForm.js:75-82 | 300 emoji count as 600: the counter is red and Submit is disabled |
| CommentFormModel.CommentForm.constructor | src/components/CommentForm.js:4-5 | empty text, not submitting |
| CommentFormModel.CommentForm.Change | src/components/CommentForm.js:16-24 | the text becomes the input |
| CommentFormModel.CommentForm.Submit | src/components/CommentForm.js:26-31 | a submit starts exactly when the text is not blank, whatever its length |
| CommentFormModel.CommentForm.DelayElapsed | src/components/CommentForm.js:34-38 | the delivered text is the trimmed text, never blank and with no space at either end; the form is emptied and re-enabled |
| CommentFormModel.CommentForm.KeyDown | src/components/CommentForm.js:41-50 | Ctrl/Cmd+Enter starts a submit exactly for non-blank text; Escape cancels |
| CommentFormModel.OverLimitKeyboardSubmit | src/components/CommentForm.js:29-45 | a 501-character text is delivered through Ctrl+Enter although the button is disabled |
| CommentFormModel.BlankTextIgnored | src/components/CommentForm.js:29 | whitespace-only text never starts a submit |
| ArticleFeedback.Present | src/components/LikeCommentSection.js:53 | a stored value that is missing or empty counts as signed out |
| ArticleFeedback.DeleteVisible | src/components/LikeCommentSection.js:250 | signed in, Delete shows exactly on comments with the user's email; signed out, exactly on comments whose email is null |
| ArticleFeedback.LikeRequest | src/components/LikeCommentSection.js:59-60 | `unlike` with DELETE exactly when liked, otherwise `like` with POST |
| ArticleFeedback.AddFailureAlert | src/components/LikeCommentSection.js:108-109 | the server's error text when non-empty, otherwise "Failed to add comment" |
| ArticleFeedback.WithoutId | src/components/LikeCommentSection.js:133 | exactly the comments whose id differs are kept |
| ArticleFeedback.WithoutIdKeepsOthers | src/components/LikeCommentSection.js:133 | every other comment keeps its count and the order; the length drops by the matching ones |
| ArticleFeedback.LikeCommentSection.constructor | src/components/LikeCommentSection.js:6-15 | 0 likes, not liked, no comments, empty text, list hidden |
| ArticleFeedback.LikeCommentSection.FetchLikes | src/components/LikeCommentSection.js:24-40 | the like state is replaced from the body; a thrown request keeps it |
| ArticleFeedback.LikeCommentSection.FetchComments | src/components/LikeCommentSection.js:42-50 | the list is the body's comments or empty; a thrown request keeps it |
| ArticleFeedback.LikeCommentSection.HandleLike | src/components/LikeCommentSection.js:52-77 | without a token nothing is sent or changed; otherwise the request follows the flag and only an ok response replaces the state |
| ArticleFeedback.LikeCommentSection.HandleAddComment | src/components/LikeCommentSection.js:79-117 | no token alerts; blank text sends nothing; ok prepends the returned comment and clears the box; a failure alerts and changes nothing |
| ArticleFeedback.LikeCommentSection.HandleDeleteComment | src/components/LikeCommentSection.js:119-138 | a declined confirm sends nothing; an ok delete removes exactly the matching comments; otherwise nothing changes |
| ArticleFeedback.LikeCommentSection.ToggleComments | src/components/LikeCommentSection.js:10 | the comment list flag flips |
| ArticleFeedback.LikeCommentSection.ChangeText | src/components/LikeCommentSection.js:9 | the box holds the typed text |
| Articles.Score | src/components/NewsPage.js:53 | a missing compound score counts as 0 |
| Articles.ToneOf | src/components/SentimentGraph.js:24-27 | positive exactly from 0.05 up, negative exactly from -0.05 down, neutral strictly between |
| Articles.MatchesTone | src/components/NewsPage.js:52-57 | a tone button keeps only articles the chart counts under that tone |
| Articles.SameCategory | src/components/NewsPage.js:25 | a match has a category name of the same length, and an identical name always matches |
| Articles.HeadlineMatches | src/components/NewsPage.js:29 | a matching query is no longer than the headline |
| Articles.ToneAgrees | src/components/SentimentGraph.js:24-27 | the list's three sentiment tests are disjoint, cover every article, and agree with the chart's bucket |
| Articles.MissingScoreIsNeutral | src/components/SentimentGraph.js:24 | an article without a score is neutral in both views |
| Articles.SameCategoryIgnoresCase | src/components/NewsPage.js:24-26 | category matching does not depend on the case of either side |
| Articles.EmptyQueryMatches | src/components/NewsPage.js:28-30 | the empty search matches every headline |
| NewsPageModel.CategoryArticles | src/components/NewsPage.js:24-26 | exactly the articles of the page's category, case-insensitively |
| NewsPageModel.SearchResults | src/components/NewsPage.js:28-30 | exactly the articles whose lower-cased headline contains the lower-cased query |
| NewsPageModel.SentimentResults | src/components/NewsPage.js:52-60 | exactly the articles of the tone that match the search |
| NewsPageModel.SentimentResultsInOrder | src/components/NewsPage.js:52-60 | the two filters are one filter by both tests, an order-keeping part of the articles and of the search results |
| NewsPageModel.SliceIndex | src/components/NewsPage.js:154 | a slice index is clamped to the list, and a negative one counts from the end |
| NewsPageModel.Slice | src/components/NewsPage.js:154 | a slice is never longer than the list |
| NewsPageModel.Window | src/components/NewsPage.js:154 | at most three cards show |
| NewsPageModel.WindowShape | src/components/NewsPage.js:154 | the cards are the articles from the index on, three when there are enough |
| NewsPageModel.NextIndex | src/components/NewsPage.js:70-72 | Next is the smaller of three forward and length minus 3: it moves three forward while a full window remains |
| NewsPageModel.PrevIndex | src/components/NewsPage.js:74-76 | Prev is the larger of three back and 0: it steps back 3 from 3 on and gives 0 below, negative indexes included |
| NewsPageModel.NextShowsFollowingCards | src/components/NewsPage.js:70-72 | after Next the cards are the next three, or the last three when fewer than three follow |
| NewsPageModel.PagingKeepsFullWindow | src/components/NewsPage.js:70-76 | with three articles or more, paging from a full window keeps a full window |
| NewsPageModel.NextWithFewArticles | src/components/NewsPage.js:70-72 | with fewer than three articles Next gives a negative index, and with two the window shows only the last |
| NewsPageModel.NewsPage.constructor | src/components/NewsPage.js:8-13 | empty lists, index 0, no tone filter, loading |
| NewsPageModel.NewsPage.Fetch | src/components/NewsPage.js:15-40 | an ok response gives the category's articles and their search results; a failure empties both; loading ends; the articles stay in the category and the shown list is an order-keeping part of them |
| NewsPageModel.NewsPage.ChangeProps | src/components/NewsPage.js:40 | new props refetch with the new category and query |
| NewsPageModel.NewsPage.FilterBySentiment | src/components/NewsPage.js:42-62 | the index resets to 0; no tone gives the search results; a tone gives the sentiment results |
| NewsPageModel.NewsPage.NextArticle | src/components/NewsPage.js:70-72 | the index becomes `NextIndex` of the old one |
| NewsPageModel.NewsPage.PrevArticle | src/components/NewsPage.js:74-76 | the index becomes `PrevIndex` of the old one and is never negative |
| NewsPageModel.NewsPage.Cards | src/components/NewsPage.js:154 | the cards are the window at the index, at most three |
| NewsPageModel.TwoArticleNext | src/components/NewsPage.js:70-72 | with two matching articles, Next leaves only the second on screen |
| SentimentGraphModel.ChartArticles | src/components/SentimentGraph.js:19-21 | exactly the articles in the category, or all for `'all'` |
| SentimentGraphModel.AllKeepsEverything | src/components/SentimentGraph.js:20 | the category `'all'` keeps every article in order |
| SentimentGraphModel.CountTones | src/components/SentimentGraph.js:23-29 | each count is the number of articles of that tone |
| SentimentGraphModel.CountsCoverAll | src/components/SentimentGraph.js:23-32 | positive + neutral + negative equals the number of articles |
| SentimentGraphModel.InsightOf | src/components/SentimentGraph.js:194-199 | "positive" exactly when positive exceeds the other two combined, likewise "negative", balanced otherwise |
| SentimentGraphModel.InsightText | src/components/SentimentGraph.js:194-198 | each insight has a non-empty text |
| SentimentGraphModel.InsightTextsDistinct | src/components/SentimentGraph.js:194-198 | the three texts differ, so the text tells which insight holds |
| SentimentGraphModel.MajoritiesExclusive | src/components/SentimentGraph.js:194-199 | the two majorities cannot both hold |
| SentimentGraphModel.Percentage | src/components/SentimentGraph.js:116-119 | 0 with no articles; between 0 and 100 for a part; 100 for the whole |
| SentimentGraphModel.SentimentGraph.constructor | src/components/SentimentGraph.js:6-8 | zero totals, loading, no articles |
| SentimentGraphModel.SentimentGraph.Load | src/components/SentimentGraph.js:11-41 | an ok response sets the totals from the filtered articles, and they add up to their number; a failure keeps them; loading ends |
| Documents.Or | server.py:25-27 | Python's `or` gives one of its operands, a true one when either is true, the first when that is true |
| Documents.OrAssociative | server.py:25 | `a or b or c` picks the same value however it is grouped |
| Documents.Status | server.py:46-49 | 200 exactly for a list of records, 500 exactly for the error |
| NewsApi.SourceLink | server.py:25 | the stored `sourceLink` if non-empty, else `url` if non-empty, else `""` |
| NewsApi.Image | server.py:26 | the stored image, or `""` when missing or empty |
| NewsApi.DateField | server.py:27 | the stored date if truthy, else the stored timestamp, else `""` |
| NewsApi.Normalize | server.py:29-39 | every record has exactly the nine keys |
| NewsApi.NormalizeFields | server.py:29-39 | category, source, headline, summary and description default to `""`, sentiment to `{}`, and the three chains are used |
| NewsApi.Docs | server.py:22 | at most one document per cursor item |
| NewsApi.Records | server.py:21-43 | at most one record per cursor item |
| NewsApi.GetNews | server.py:17-49 | the loop serves the records of the documents, or the error when the cursor fails |
| NewsApi.RecordsFollowDocs | server.py:21-43 | one record per document, in order, each the normalised document with the nine keys |
| NewsApi.AllMappingsKept | server.py:22-40 | when every item is a document, there is one per item in cursor order |
| NewsApi.SkipsNonMapping | server.py:41-43 | an item whose processing raises is skipped and the rest are served as if it were absent |
| NewsApi.RecordsSplit | server.py:22-43 | the records of two cursor parts are the records of each part |
| BackendApi.Convert | backend/server.py:22-31 | conversion succeeds exactly when every required field is present and the timestamp is a date; the record has exactly the eight keys |
| BackendApi.ConvertFields | backend/server.py:22-31 | `sourceLink` is the stored `url`, the other fields are copied, and there is no `date` or `sentiment` |
| BackendApi.Served | backend/server.py:17-37 | a list exactly when every item converts, then one record per item in order; otherwise the error |
| BackendApi.AllOrNothing | backend/server.py:20-37 | one bad item anywhere turns the whole response into the error |
| Carousel.JsRem | brightfeed/src/App.js:31 | JavaScript's remainder lies in `[0, n)` for a non-negative dividend |
| Carousel.NextIndex | brightfeed/src/App.js:31 | from any index in the list, Next stays in the list |
| Carousel.PreviousIndex | brightfeed/src/App.js:35-37 | from any index in the list, Previous stays in the list |
| Carousel.JsRemNonNegative | brightfeed/src/App.js:31 | for a non-negative dividend it is the mathematical remainder |
| Carousel.NextStep | brightfeed/src/App.js:30-32 | next moves one forward and wraps from the last index to 0 |
| Carousel.PreviousStep | brightfeed/src/App.js:34-38 | previous moves one back and wraps from 0 to the last index |
| Carousel.StepsInRange | brightfeed/src/App.js:30-38 | both stay in `[0, n)` and each undoes the other |
| Carousel.NextTimesMoves | brightfeed/src/App.js:31 | k presses of next move k places round the circle |
| Carousel.NextFullCircle | brightfeed/src/App.js:31 | n presses of next return to the start |
| Carousel.App.constructor | brightfeed/src/App.js:8-9 | no articles, index 0 |
| Carousel.App.Load | brightfeed/src/App.js:12-28 | an ok response replaces the list; a failure leaves it empty; the index stays 0 |
| Carousel.App.Next | brightfeed/src/App.js:30-32 | the index moves one forward with wrap-around and stays in range |
| Carousel.App.Previous | brightfeed/src/App.js:34-38 | the index moves one back with wrap-around and stays in range |
| Carousel.App.Shown | brightfeed/src/App.js:43-50 | the current article for a non-empty list, nothing otherwise, so the modulo never sees 0 |

## Left out

- JSX rendering and styling: class names, icons, layout, dark mode and the view-mode switch. Only the
  values a view shows or enables are modelled.
- Network calls: every `fetch` outcome is a parameter (an ok payload, a not-ok error body, or a
  thrown request). The request URLs and headers are not modelled.
- Browser storage and JSON: storage holds either the serialisation of a record, which parses back to
  it, or text that does not parse. Stored JSON that parses to a non-object is not modelled.
- Timers: each `setTimeout` and the awaited delay become explicit events. Deadlines and their order
  are not tracked, so any pending timer may fire next.
- `toLocaleDateString`: the text for a week or more is a parameter.
- Unicode: lower-casing and trimming are ASCII only. String lengths in `CommentForm` are counted in
  UTF-16 code units, as JavaScript does.
- The canvas drawing of the sentiment chart and the `toFixed(1)` rounding of percentages.
- `Math.random()` and `Date.now()`: in `CommentsSection` they are parameters of the mount and of
  adding a comment.
- `isoformat()` in `backend/server.py`: the record keeps the date value rather than its text.
- Mongo connection, CORS, `jsonify`, the printed logs, and the text of the 500 error body.
- Python floats and NaN in stored documents: numbers are integers or reals.
- The avatar URLs of the demo comments, whose texts are also shortened.
- The grouped getters of the preferences store (`getDisplayPreferences` and the rest). They only
  copy fields out.
- The `usePreferences` hook's missing-provider error.
- Bookmarks, and the custom event that `NewsPage` dispatches for them.
- `backend/WebScrapingScript.py`, the install and test-server scripts, and the remaining view
  components.
- ArticleFeedback.LikeCommentSection.HandleAddComment: does not model the `loading` flag, which is
  set for the request and cleared in `finally`.
- ArticleFeedback.LikeCommentSection.FetchLikes: does not distinguish the `user_liked` field it reads
  from the `liked` field that `handleLike` reads; both are the one `liked` flag.
- Stale closures and overlapping requests in `LikeCommentSection`: each handler sees the state as it
  was when the handler ran to completion.
- NewsPageModel.NewsPage.Fetch: does not model the `loading` render branch, and the tone
  selection is kept but no longer applied.
- NewsPageModel.NewsPage.NextArticle: does not model React's batching of updater functions; each
  click is one step.
- PreferencesEditor.Editor.HandleSave: is reachable only through the enabled button, so it requires
  `SaveEnabled`.
- CommentFormModel.CommentForm.Submit: requires no submit in flight, because the button and the text
  area are disabled while submitting.
- ArticleFeedback.DeleteVisible: a comment whose `user_email` field is missing (`undefined`) is
  modelled as `null`, so a signed-out user sees Delete on it in the model but not in the source.
- ArticleFeedback.LikeCommentSection.FetchLikes: a not-ok response whose body lacks `like_count`
  and `user_liked` sets both to `undefined`; the model cannot hold that and needs both fields.
- RelativeTime.Format: takes the age in whole milliseconds. An unparsable `created_at` gives NaN in
  the source, every bucket test fails and "Invalid Date" is shown; that path is not modelled.
- Preferences.ToggleArray: requires a list under the key. The source throws a TypeError on a missing,
  null or number value, and on a string it tests for a substring and then throws or spreads the
  characters; such values can reach the store through `LoadOver`.
- Preferences.AddCategory: requires a list of categories, for the reason given for `ToggleArray`.
- Preferences.RemoveCategory: requires a list of categories, for the reason given for `ToggleArray`.
- Preferences.Provider.ToggleArrayPreference: requires a list under the key, as `ToggleArray` does.
- Preferences.Provider.AddPreferredCategory: requires a list of categories, as `ToggleArray` does.
- Preferences.Provider.RemovePreferredCategory: requires a list of categories, as `ToggleArray` does.
- Preferences.Provider.IsPreferredCategory: requires a list of categories; on a string the source's
  `includes` is a substring test and on other values it throws.
- PreferencesEditor.Editor.HandleArrayToggle: requires a list under the key, as `ToggleArray` does.
- CommentFormModel.CommentForm.KeyDown: requires no submit in flight, because the text area is
  disabled while submitting.
- Comments.CommentsSection.Load: requires the random roll to be below 100, as
  `Math.floor(Math.random() * 100)` is.
