# Lost-and-found web client: a Dafny model of its core

This project models the client-side logic of a campus lost-and-found system and proves properties of it. The original is a TypeScript/Next.js web application. The model covers:

- **The agent (AI assistant) API module** (`api/modules/agent.ts`):
  - record normalisers for sessions, history messages and stream events, which drop or default malformed JSON and never raise;
  - the streaming client `streamAgentMessage`. It splits the decoded response text into `\r?\n` lines, keeps the unterminated rest for the next chunk, classifies `data:` lines into events or the `[DONE]` sentinel, and handles the trimmed tail when the body closes;
  - the error built from a refused stream response.
- **The lost-and-found API module** (`api/modules/lostFound.ts`):
  - text and number normalisers;
  - the status resolvers that reconcile symbolic codes, legacy numeric codes 0–5 and Chinese labels;
  - the four record mappers;
  - payload normalisation for publish, update and claim requests;
  - the list and detail query parameters.
- **The feedback API module** (`api/modules/feedback.ts`):
  - merging the free-text "other" type;
  - splitting a submission into one request per type;
  - post-id sanitising and the page clamp.
- **Query keys** (`api/queryKeys.ts`): stripping empty fields, and the cache key builders.
- **The public configuration** (`api/modules/public.ts`): its fallback chain and defaults.
- **The announcement list** (`api/modules/announcement.ts`): its page clamp.
- **The query page** (`components/query/QueryPageClient.tsx`):
  - reading filters from the URL and writing them back;
  - filtering and sorting the items;
  - the state updates of its two handlers.
- **The feedback form** (`components/feedback/FeedbackSubmitForm.tsx`): the type options and the "other type" confirmation state machine.
- **The agent page** (`components/agent/AgentPageClient.tsx`):
  - display helpers;
  - the active-session rule;
  - the bubble list that `handleSubmit` builds from the streamed events;
  - the session switch and creation handlers.

Untyped JSON is the datatype `Js.Value`, with JS numbers (finite, NaN, ±Infinity), truthiness and property reads. Pure code is modelled as functions and lemmas. Code that changes state step by step is modelled as methods proved against specification functions:

- the stream read loop: `AgentStream.ReadBody`, `HandleLines`, `HandleLine` and `HandleTail`;
- `URLSearchParams` building: `QueryPage.BuildSearchText`;
- the React state of the query page, the feedback form and the agent page: the classes `QueryPage.QueryPageView`, `FeedbackForm.FeedbackSubmitForm` and `AgentPage.AgentChat`.

Things outside the code become parameters:

- the network (`server`, `post`, `get`, `createSession`);
- `JSON.parse` (`parse`, where `None` means it threw);
- the option lists and time helpers the components import from files that are not part of this model.

Each callback of the stream becomes a `Signal` in an output trace:

- `onEvent(e)` becomes `Event(e)`;
- `onDone()` becomes `Done`.

The read loop is proved equal to a specification stated on the concatenation of all chunks (`BodySpec(Concat(chunks), …)`). So what the callbacks receive does not depend on how the text is split into chunks.

Behaviours of the code worth noting:

- `session_id` must already be a string. A number is not coerced.
- History images are trimmed as well as filtered, and blank strings are dropped.
- The item-status resolver recognises `ARCHIVED` only as a symbolic code. The label 已归档 matters only to the review-status resolver.
- A stream cancelled mid-way ends with a failure (`Interrupted(Aborted)`) that the page shows no toast for. No separate cancellation outcome exists.
- The item-type fallback chain of the public configuration uses `||`, that is JS truthiness. An empty list counts as present.

## Model

| member | source | states |
|---|---|---|
| Js.TrimStart | api/modules/agent.ts:291 | `trimStart` drops exactly the leading white space: the result is a suffix, starts with a non-space, and everything cut is space |
| Js.TrimEnd | api/modules/agent.ts:306 | the end of `trim` drops exactly the trailing white space: the result is a prefix, ends with a non-space, and everything cut is space |
| Js.Trim | api/modules/agent.ts:80 | the result has white space at neither end, is empty exactly for blank text, and leaves trimmed text unchanged (so trimming is idempotent) |
| Js.TrimIsInfix | api/modules/agent.ts:80 | `trim` returns the input with its ends cut: the result is the infix starting after the leading white space that `trimStart` cuts, everything cut on either side is white space, and the result neither starts nor ends with white space, so no longer cut was possible |
| Js.ToText | api/modules/agent.ts:76-81 | `toText` gives trimmed text; any non-string gives ''; a string gives '' exactly when it is blank |
| Js.ToOptionalText | api/modules/agent.ts:92-95 | `toOptionalText` is absent exactly when `toText` is empty, and otherwise holds that text |
| Js.NonBlankTexts | api/modules/agent.ts:87-89 | `map(toText).filter(Boolean)` is no longer than its input and holds only non-empty trimmed strings |
| Js.NonBlankTextsKeeps | api/modules/agent.ts:87-89 | every element whose trimmed text is non-empty reaches the output |
| Js.NonBlankTextsOrigin | api/modules/agent.ts:87-89 | each output string is the trimmed text of an input element at the same or a later index |
| Js.NonBlankTextsAppend | api/modules/agent.ts:87-89 | order and multiplicity: the texts of a concatenation are the texts of its parts, concatenated, and one element gives its trimmed text exactly when that is non-empty; together these fix the result on every input |
| Js.Take | api/modules/lostFound.ts:200 | `slice(0, n)` is the prefix of length min(n, length) |
| Js.Upper | api/modules/lostFound.ts:230 | `toUpperCase` keeps the length and maps each character on its own (ASCII letters only) |
| Js.UpperOnlyOf | api/modules/lostFound.ts:231 | a word without ASCII letters (a digit, a Chinese label) equals the upper-cased text only when the text is that word |
| Js.TruncReal | api/modules/lostFound.ts:208 | `Math.trunc` rounds toward zero: below for non-negative values, above for non-positive ones, by less than one |
| AgentRecords.ToTextArray | api/modules/agent.ts:83-90 | `toTextArray` is [] for a non-array; otherwise it is no longer than the array and holds only non-empty trimmed strings |
| AgentRecords.ToTextArrayElements | api/modules/agent.ts:83-90 | every non-blank string element appears trimmed in the result, and every result element comes from an element at the same or a later index |
| AgentRecords.ToTextArrayInOrder | api/modules/agent.ts:83-90 | `toTextArray` keeps order and multiplicity: the array of a concatenation is the two arrays concatenated, and a one-element array gives that element's trimmed text exactly when it is non-empty |
| AgentRecords.ToAgentSession | api/modules/agent.ts:97-111 | no session exactly for a non-object or a blank or non-string `session_id`; otherwise the id is non-empty and every field is the trimmed text of its field ('' when missing or not a string) |
| AgentRecords.ToAgentHistoryMessage | api/modules/agent.ts:113-130 | dropped exactly for a non-object or a blank content; the role is user exactly when the trimmed role is 'user'; the content is the non-empty trimmed content; the images go through `toTextArray` |
| AgentRecords.Present | api/modules/agent.ts:218-220 | `filter(item => item !== null)` keeps only present values that were in the input, and none more than it had |
| AgentRecords.PresentAppend | api/modules/agent.ts:218-220 | the filter keeps every present value, in order: filtering a concatenation concatenates the filtered parts, and one value is kept exactly when it is present |
| AgentRecords.SessionList | api/modules/agent.ts:217-220 | `list.map(toAgentSession).filter(...)` is no longer than the list and every session in it has a non-empty id |
| AgentRecords.SessionListInOrder | api/modules/agent.ts:217-220 | the sessions are `toAgentSession` of each item that normalises, in item order: a concatenation gives the sessions of its parts, concatenated, and one item gives its session exactly when it normalises |
| AgentRecords.SessionsFrom | api/modules/agent.ts:216-220 | `getAgentSessions` maps the `sessions` array, or nothing when it is not an array; at most as many sessions as items, each with a non-empty id |
| AgentRecords.HistoryList | api/modules/agent.ts:234-237 | `list.map(toAgentHistoryMessage).filter(...)` is no longer than the list and every message in it has non-empty content |
| AgentRecords.HistoryListInOrder | api/modules/agent.ts:234-237 | the messages are `toAgentHistoryMessage` of each item that normalises, in item order: a concatenation gives the messages of its parts, concatenated, and one item gives its message exactly when it normalises |
| AgentRecords.HistoryFrom | api/modules/agent.ts:233-237 | `getAgentHistory` maps the `messages` array, or nothing when it is not an array; at most as many messages as items, each with non-empty content |
| AgentRecords.CreateSessionBody | api/modules/agent.ts:196-201 | the create-session body holds a `title` exactly when the trimmed title is non-empty, and then holds that trimmed title |
| AgentRecords.CreateAgentSession | api/modules/agent.ts:195-209 | `createAgentSession` succeeds exactly when the response's trimmed `session_id` is non-empty, returns it, and otherwise fails with "创建会话失败：未返回会话 ID" |
| AgentRecords.GetAgentHistory | api/modules/agent.ts:223-238 | a blank session id fails with "sessionId 不能为空" before any request; otherwise the history is read for the trimmed id |
| AgentRecords.EventData | api/modules/agent.ts:147 | a non-object `data` of a tool event reads as `{}`: every field of it is undefined |
| AgentRecords.ToAgentStreamEvent | api/modules/agent.ts:132-175 | no event exactly when parsing failed, the value is not an object, or the trimmed `type` is not content, tool_call or tool_result; content keeps its string untrimmed ('' for a non-string); tool events carry the trimmed fields of `data` |
| AgentRecords.ContentIsVerbatim | api/modules/agent.ts:139-144 | a content event carries its text exactly, white space included |
| AgentStream.SplitLines | api/modules/agent.ts:284 | splitting gives at least one piece, and the last piece (the new buffer) holds no line feed |
| AgentStream.SplitLinesAppend | api/modules/agent.ts:283-285 | appending a chunk only re-splits the buffered last piece: complete lines already found stay as they are |
| AgentStream.SplitLinesCrLf | api/modules/agent.ts:284 | a line ended by `\r\n` is the text before the `\r` |
| AgentStream.SplitLinesLf | api/modules/agent.ts:284 | a line ended by a bare `\n` is the text before it |
| AgentStream.BufferedSplit | api/modules/agent.ts:283-285 | the complete lines of the text so far plus a chunk are the earlier ones followed by those of buffer + chunk, and the new buffer is the last piece of buffer + chunk |
| AgentStream.Classify | api/modules/agent.ts:288-295 | a line without the `data:` prefix is ignored, and so is a `data:` line with an empty payload after `trimStart`; the sentinel is exactly a `data:` line whose payload is `[DONE]`; every other `data:` line is a payload, namely the rest of the line after `trimStart` |
| AgentStream.Step | api/modules/agent.ts:288-302 | an ignored line leaves the run as it is; the sentinel adds `onDone` and finishes the run; a payload adds `onEvent` with the event it parses into, and leaves the run as it is when it parses into none |
| AgentStream.RunLinesFinishedIffSentinel | api/modules/agent.ts:287-303 | after a batch of lines the stream is finished exactly when one of them is the sentinel |
| AgentStream.SentinelEndsTheBatch | api/modules/agent.ts:295-298 | once the sentinel has been met, the lines after it are never processed |
| AgentStream.RunLinesDoneOnlyAtEnd | api/modules/agent.ts:287-303 | within the loop, `onDone` is called at most once, as the last callback, and exactly when the sentinel was met |
| AgentStream.TailSignals | api/modules/agent.ts:306-319 | the trimmed tail gives `onDone` as the last callback, preceded by at most one event |
| AgentStream.FallbackMessage | api/modules/agent.ts:179 | the fallback error message names the HTTP status, or omits it for a zero status |
| AgentStream.ResolveStreamError | api/modules/agent.ts:177-193 | the error keeps the status; its message is the payload's trimmed non-blank `message`, else the fallback; its code is the payload's numeric `code`, else absent; an unreadable or non-object payload gives the fallback alone |
| AgentStream.BodyDoneOnlyAtEnd | api/modules/agent.ts:278-319 | reading the body calls `onDone` at most once, as the last callback, exactly when it ends without an error |
| AgentStream.StreamDoneExactlyOnce | api/modules/agent.ts:240-320 | on every normal exit of `streamAgentMessage` `onDone` is called exactly once and last; when it raises an error, `onDone` is never called |
| AgentStream.FinishedPrefix | api/modules/agent.ts:295-298 | once the text read so far holds the sentinel, text read later changes nothing |
| AgentStream.FinishedBody | api/modules/agent.ts:295-298 | once the chunks read so far hold the sentinel, the outcome of the whole body is fixed |
| AgentStream.HandleLine | api/modules/agent.ts:288-302 | one pass of the `for` body performs exactly the specified step |
| AgentStream.HandleLines | api/modules/agent.ts:287-303 | the `for` loop over a batch handles lines in order and stops at the sentinel, as the specification of the run says |
| AgentStream.ReadBody | api/modules/agent.ts:276-319 | the read loop and the tail give exactly the outcome specified on the concatenated text, so chunking does not matter |
| AgentStream.HandleTail | api/modules/agent.ts:306-319 | the tail handling gives exactly the specified tail signals |
| AgentStream.StreamAgentMessage | api/modules/agent.ts:240-320 | `streamAgentMessage` refuses a blank session id or message before any request, turns an error status or JSON reply into the resolved error, reports a missing body, and otherwise reads the body as specified |
| ApiErrors.Plain | api/modules/agent.ts:206 | an error raised with a message alone carries no code and no status |
| LostFound.ToLimitedText | api/modules/lostFound.ts:195-201 | `toLimitedText` is absent exactly for blank or non-string input; otherwise it is the trimmed text cut to the limit, which starts with a non-space |
| LostFound.ToLimitedRequiredText | api/modules/lostFound.ts:224-226 | `toLimitedRequiredText` is the trimmed text cut to the limit ('' for blank or non-string input), never longer than the limit |
| LostFound.ToPositiveInteger | api/modules/lostFound.ts:203-210 | a finite number of at least 1 gives its truncation; anything else (below 1, NaN, infinite) gives the fallback |
| LostFound.ToPageSize | api/modules/lostFound.ts:212-215 | the page size never exceeds 50 and is at least 1 when the fallback is; a value from 1 up to 51 is truncated; 50 or more gives 50; an invalid value (not finite, or below 1) gives the fallback capped at 50 |
| LostFound.PostTypeOfTextByAliases | api/modules/lostFound.ts:228-235 | the if-chain gives a found-item post exactly when the upper-cased text is '2', 'FOUND' or 招领 |
| LostFound.ResolvePostTypeByAliases | api/modules/lostFound.ts:228-235 | `resolvePostType` gives 招领 exactly when the trimmed, upper-cased value is '2', 'FOUND' or 招领, else 失物 |
| LostFound.ResolvePostTypeOfLabel | api/modules/lostFound.ts:228-235 | resolving a post type's own label gives that post type back |
| LostFound.ItemStatusOfTextByAliases | api/modules/lostFound.ts:237-262 | the if-chain gives 已归还 exactly for the returned aliases, else 待认领 for a found-item post and 寻找中 for a lost-item post |
| LostFound.ResolveLostFoundItemStatusByAliases | api/modules/lostFound.ts:237-262 | `resolveLostFoundItemStatus` gives 已归还 exactly for 已认领, 已归还, 已解决, CLAIMED, SOLVED, ARCHIVED, CANCELLED, CANCELED and REJECTED (any case), whatever the post type; otherwise it goes by post type |
| LostFound.CancelledAndRejectedCountAsReturned | api/modules/lostFound.ts:253-259 | cancelled and rejected posts are reported as returned items, whatever their post type and letter case |
| LostFound.ItemStatusAgreesWithPostType | api/modules/lostFound.ts:261 | an item that is not returned is awaiting its claim exactly when it is a found-item post |
| LostFound.CodeRulesChain | api/modules/lostFound.ts:283-303 | the code table read in order is the table 0/PENDING, 1/APPROVED, 2/MATCHED, 3/CLAIMED/SOLVED/ARCHIVED, 4/CANCELED/CANCELLED, 5/REJECTED, with pending for anything else |
| LostFound.CodeRulesUnfold | api/modules/lostFound.ts:283-303 | the ordered code table agrees with the code if-chain on every code |
| LostFound.ReviewStatusOfTextsByRules | api/modules/lostFound.ts:264-303 | on trimmed inputs, a recognised label decides the review status (已解决 and 已归档 give 已认领); otherwise the upper-cased code is looked up in the code table |
| LostFound.LabelRuleDecides | api/modules/lostFound.ts:266-281 | a recognised label decides the review status whatever the code |
| LostFound.ResolveReviewStatusByRules | api/modules/lostFound.ts:264-304 | `resolveReviewStatus` is the label table when the trimmed status text is a recognised label, else the code table on the trimmed, upper-cased code |
| LostFound.ReviewLabelOverridesCode | api/modules/lostFound.ts:264-279 | a review status's label in `status_text` overrides whatever code is sent |
| LostFound.LabelDecides | api/modules/lostFound.ts:264-279 | each review status's label decides that status over any code |
| LostFound.LegacyCodeDecodes | api/modules/lostFound.ts:283-301 | without a label, each legacy numeric code 0–5 decodes to its review status |
| LostFound.DigitCodes | api/modules/lostFound.ts:284-301 | the digits 0–5 decode to 待审核, 已通过, 已匹配, 已认领, 已取消 and 已驳回 |
| LostFound.DigitIsItsOwnCode | api/modules/lostFound.ts:283 | a one-digit code is unchanged by trimming and upper-casing |
| LostFound.ResolveMyPostItemStatus | api/modules/lostFound.ts:306-311 | `resolveMyPostItemStatus` gives 已归还 exactly for a claimed post, and otherwise agrees with the post type |
| LostFound.PreferredItemType | api/modules/lostFound.ts:317 | a non-blank `item_type_other` (trimmed) wins over `item_type` |
| LostFound.JoinNonEmpty | api/modules/lostFound.ts:349 | joining contact name and phone is empty exactly when both are; two non-empty parts are joined by one space |
| LostFound.MapPostListItemToLostFoundItem | api/modules/lostFound.ts:313-331 | a list item maps to the resolved post type, a status that is returned exactly for the returned aliases and otherwise agrees with the post type, the preferred item type, an optional reward remark, its location as storage place, its photos, no claims and no contact; id, name, time, features (as description too) and reward flag are copied |
| LostFound.MapPostDetailToLostFoundItem | api/modules/lostFound.ts:333-354 | a detail maps to the resolved post type with the same status rules, the preferred item type, the trimmed storage location falling back to the location, the contact as the non-blank trimmed name and phone joined by a space, its photos and claim count, the optional reward remark; id, name, location, time, features (as description too) and reward flag are copied |
| LostFound.MapPostDetailToPublishRecord | api/modules/lostFound.ts:356-380 | the post type is the resolved one and the item type the preferred one; the review status comes from the code alone; the item status is returned exactly for a claimed post; at most the first three photos are kept; the contact name and phone are their trimmed texts; the reject reason, update time and reward remark are optional texts; the time range is `7d`; id, name, location, time, features, reward flag and creation time are copied |
| LostFound.MapMyPostListItemToPublishRecord | api/modules/lostFound.ts:382-405 | the post type is the resolved one and the item type the preferred one; the review status uses the status label when recognised; the item status is returned exactly for a claimed post; photos, features, contact, reward and update time are empty; the time range is `7d`; id, name, location, time and creation time are copied |
| LostFound.CutOrAbsent | api/modules/lostFound.ts:416-417 | a text query value is dropped exactly when blank, and is otherwise the trimmed text cut to the limit |
| LostFound.LostFoundListQuery | api/modules/lostFound.ts:407-423 | `getLostFoundList` sends the caller's params with item type and location cut to 20 and 100 characters (dropped when blank), the status as given, the page `toPositiveInteger(page, 1)` and the page size `toPageSize(page_size, 10)`: 1 and 10 when absent, otherwise a page of at least 1 and a page size from 1 to 50 |
| LostFound.ListQueryOverrides | api/modules/lostFound.ts:414-421 | the overriding entries are exactly the five list keys, with the values described for `getLostFoundList`, page and page size included |
| LostFound.MyPostListQuery | api/modules/lostFound.ts:439-452 | `getMyPostList` sends the caller's params with the page `toPositiveInteger(page, 1)` and the page size `toPageSize(page_size, 10)`: 1 and 10 when absent, otherwise a page of at least 1 and a page size from 1 to 50 |
| LostFound.ToQueryId | api/modules/lostFound.ts:217-222 | a string id is trimmed; a finite number is truncated and written in decimal |
| LostFound.QueryIdOfInteger | api/modules/lostFound.ts:217-219 | an integral id is written unchanged |
| LostFound.CleanImages | api/modules/lostFound.ts:470 | images are the first min(limit, number of non-blank images) trimmed non-blank ones, in order; none when absent |
| LostFound.NormalizePublishPayload | api/modules/lostFound.ts:454-478 | every publish text field is trimmed and cut to 50, 20, 100, 100, 255, 30 or 20 characters; the reward description is '' without a reward; at most three trimmed non-blank images; other fields pass through |
| LostFound.NormalizeUpdatePayload | api/modules/lostFound.ts:480-505 | as for publish, with the custom item type cut to 15 and the features to 200 characters |
| LostFound.NormalizeClaimPayload | api/modules/lostFound.ts:523-538 | the claim's post id is the numeric item id, or 0 when that is not finite; the description is cut to 500 characters; proof images are trimmed, non-blank and at most 255 |
| Feedback.MapFeedbackItemToRecord | api/modules/feedback.ts:45-58 | the types are [type_other] for the "other" type with a non-empty text, otherwise [type] when non-empty, else []; the status is 已处理 exactly when processed; a missing description is '' |
| Feedback.ResolveSubmitTypePayload | api/modules/feedback.ts:60-73 | a trimmed preset type is sent as itself with an empty `type_other`; anything else as 其它类型 with the trimmed text |
| Feedback.SubmittedTypeRoundTrips | api/modules/feedback.ts:45-73 | a submitted non-blank type comes back from the list as the single type of its record: the merge undoes the split |
| Feedback.ResolvePostId | api/modules/feedback.ts:75-84 | the post id is 0 for undefined, null, non-finite or negative input, and the number itself otherwise |
| Feedback.KeptTypes | api/modules/feedback.ts:102 | the kept types are non-empty, trimmed and no more than the given ones |
| Feedback.KeptTypesInOrder | api/modules/feedback.ts:102 | which types are kept and in what order: the kept types of a concatenation are those of its parts, concatenated, and one type is kept, trimmed, exactly when it is not blank |
| Feedback.SubmitFeedbackRequests | api/modules/feedback.ts:101-117 | one request per kept type, in order, each with the same sanitised post id and trimmed description and the type split of that type |
| Feedback.KeptTypesEmptyIffBlank | api/modules/feedback.ts:102-104 | no type is kept exactly when every type is blank |
| Feedback.NothingSentOnlyForBlankTypes | api/modules/feedback.ts:102-104 | no request is sent exactly when every type is blank |
| Feedback.SentTypesRoundTrip | api/modules/feedback.ts:109-117 | the record listed for each sent request shows the kept type it was sent for |
| Feedback.FeedbackListQuery | api/modules/feedback.ts:86-99 | the feedback list params keep the caller's entries, with the page and page size clamped as for announcements: 1 and 10 when absent, otherwise a page of at least 1 and a page size from 1 to 50 |
| Feedback.RecordsFrom | api/modules/feedback.ts:98 | record `i` is `mapFeedbackItemToRecord` of item `i`, so one record per item, in order, each with at most one type and the item's id |
| QueryKeys.RemoveEmptyFields | api/queryKeys.ts:6-12 | exactly the entries whose value is undefined, null or '' are dropped; all others, 0 and false included, keep their values |
| QueryKeys.RemoveEmptyFieldsIdempotent | api/queryKeys.ts:6-12 | cleaning twice is cleaning once |
| QueryKeys.RemoveEmptyFieldsSameKey | api/queryKeys.ts:6-12 | two param objects clean to the same object exactly when they agree on every non-empty entry |
| QueryKeys.KindKey | api/queryKeys.ts:25 | a kind key is its namespace root followed by the kind |
| QueryKeys.ParamsKey | api/queryKeys.ts:26-27 | a list key is the kind key followed by the cleaned params |
| QueryKeys.IdKey | api/queryKeys.ts:29 | an id key is the kind key followed by the id |
| QueryKeys.ListKeysNest | api/queryKeys.ts:22-62 | for all params and ids, each namespace root is a prefix of its kind keys, and each kind key of its parameterised and id keys, so invalidating a broader key reaches the narrower ones |
| QueryKeys.RootsDistinct | api/queryKeys.ts:14-20 | a key starts with a namespace's root exactly when it was built under that namespace |
| QueryKeys.ListKeySharing | api/queryKeys.ts:26-27 | two list keys are equal exactly when their cleaned params are equal |
| Public.FirstTruthy | api/modules/public.ts:25-30 | the `\|\|` chain gives the first truthy named field (one with no truthy field before it), and the fallback when no field is truthy |
| Public.NumberOrZero | api/modules/public.ts:35-36 | `Number(x \|\| 0)` is 0 for a falsy value and the number itself for a truthy number |
| Public.ToPublicConfig | api/modules/public.ts:24-38 | the item types come from the fallback chain over the four field names, else []; the feedback types default to []; the two counts default to 0 |
| Public.ItemTypesFirstPresent | api/modules/public.ts:25-30 | when the four fields hold lists or nothing, the item types are the first list present (an empty list counts), else [] |
| Public.EmptyConfigDefaults | api/modules/public.ts:32-37 | an empty result gives empty lists and zero counts |
| Public.CountKept | api/modules/public.ts:35 | a non-zero number of claim validity days is taken as given |
| Announcement.TruncOr | api/modules/announcement.ts:24-25 | `Math.trunc(v || d)`: a falsy value gives the default; a non-zero finite number is cut toward zero to an integer; the infinities pass through |
| Announcement.ClampPage | api/modules/announcement.ts:24 | the sent page for every absent or numeric page: 1 for an absent, zero or NaN page, for a finite page below 1 and for -Infinity; the integer part of a finite page of at least 1; +Infinity passes through |
| Announcement.ClampPageSize | api/modules/announcement.ts:25 | the sent size for every absent or numeric size: 10 for an absent, zero or NaN size; the integer part of a finite size from 1 below 51; 50 for a finite size of at least 50 and for +Infinity; 1 for any other non-zero finite size and for -Infinity; always an integer from 1 to 50 |
| Announcement.ClampDefaults | api/modules/announcement.ts:24-25 | an absent page becomes 1 and an absent page size 10 |
| Announcement.ClampKeepsValidIntegers | api/modules/announcement.ts:24-25 | an integer page of at least 1 and an integer page size from 1 to 50 are sent unchanged |
| Announcement.PagedQuery | api/modules/announcement.ts:27-35 | the caller's params are copied with `page` and `page_size` overridden by the clamped values |
| QueryPage.GetEntry | components/query/QueryPageClient.tsx:28-31 | `get` returns a value paired with the name, and nothing exactly when no pair has that name |
| QueryPage.Without | components/query/QueryPageClient.tsx:53-62 | removing a name leaves no pair with it, and every other name reads as before |
| QueryPage.SetEntry | components/query/QueryPageClient.tsx:53-62 | after `set`, the name reads as the new value and every other name reads as before |
| QueryPage.SearchParams.Set | components/query/QueryPageClient.tsx:53-62 | `set` updates the pairs as specified |
| QueryPage.ParseInitialState | components/query/QueryPageClient.tsx:27-48 | `hasViewed` holds exactly when the first `viewed` param is `1`; `itemType` and `location` are their trimmed params (absent when blank), `timeRange` and `status` their params when allowed |
| QueryPage.TrimmedParam | components/query/QueryPageClient.tsx:28-36 | a text param is its trimmed value, and absent exactly when missing or blank |
| QueryPage.AllowedParam | components/query/QueryPageClient.tsx:37-44 | an option param is kept exactly when it is non-empty and one of the allowed values, and then unchanged |
| QueryPage.SetIfPresent | components/query/QueryPageClient.tsx:53-62 | setting a filter appends one pair for a present filter and none otherwise |
| QueryPage.BuildSearchText | components/query/QueryPageClient.tsx:50-65 | `buildSearchText` writes exactly the specified pairs, one per present filter, then `viewed=1` |
| QueryPage.SetAppends | components/query/QueryPageClient.tsx:53-62 | setting a name not yet present appends the pair |
| QueryPage.GetEntryAppend | components/query/QueryPageClient.tsx:28-31 | reading appended pairs reads the first part, then the second |
| QueryPage.SearchEntriesGet | components/query/QueryPageClient.tsx:50-65 | a name reads back from the first of the five groups that holds it |
| QueryPage.SearchEntriesKeys | components/query/QueryPageClient.tsx:50-65 | a key is written exactly for a present filter, with its value, and `viewed` exactly when viewed |
| QueryPage.UrlRoundTrip | components/query/QueryPageClient.tsx:27-65 | parsing the built params gives back the same filters and the same viewed flag, for normalised filters |
| QueryPage.ParseKnownEntries | components/query/QueryPageClient.tsx:27-48 | params whose keys read back normalised filters and the `viewed` flag parse to exactly that state |
| QueryPage.TextRoundTrip | components/query/QueryPageClient.tsx:28-36 | a trimmed non-empty text filter reads back as itself |
| QueryPage.OptionRoundTrip | components/query/QueryPageClient.tsx:37-44 | an allowed non-empty option filter reads back as itself |
| QueryPage.ParsedFiltersNormalised | components/query/QueryPageClient.tsx:27-48 | whatever the URL holds, parsed text filters are trimmed and non-empty, and option filters are allowed |
| QueryPage.Filter | components/query/QueryPageClient.tsx:80-92 | the filter keeps only items that match every present filter and the time range, every matching item, and no item more often than the input has it |
| QueryPage.FilterInOrder | components/query/QueryPageClient.tsx:80-92 | `filter` keeps order and multiplicity: filtering a concatenation concatenates the filtered parts, and one item is kept exactly when it matches |
| QueryPage.Insert | components/query/QueryPageClient.tsx:93 | inserting into a newest-first list keeps it newest-first and adds exactly the one item |
| QueryPage.SortedCons | components/query/QueryPageClient.tsx:93 | an item no older than the head of a newest-first list can go in front |
| QueryPage.SortNewestFirst | components/query/QueryPageClient.tsx:93 | the sort orders newest first and is a permutation of its input |
| QueryPage.FilteredItems | components/query/QueryPageClient.tsx:79-96 | `filteredItems` is newest first, holds only matching items, each matching item, and is a permutation of the filtered items |
| QueryPage.QueryPageView.constructor | components/query/QueryPageClient.tsx:71-76 | the page starts from the filters and viewed flag parsed from the URL, with results shown exactly when viewed |
| QueryPage.QueryPageView.HandleFiltersChange | components/query/QueryPageClient.tsx:104-108 | new filters hide the results (`hasViewed` false) and the URL drops `viewed` |
| QueryPage.QueryPageView.HandleView | components/query/QueryPageClient.tsx:110-114 | viewing sets both `hasViewed` and `hasSearchedOnce`, keeps the filters and records `viewed=1` |
| QueryPage.ViewSurvivesReload | components/query/QueryPageClient.tsx:27-114 | reloading the page after viewing shows the results again; after a filter change it does not |
| FeedbackForm.ToOption | components/feedback/FeedbackSubmitForm.tsx:42-54 | a configured type gives the "other" option exactly when it is 其它类型 or the other value, and otherwise an option of itself |
| FeedbackForm.SameValueSameOption | components/feedback/FeedbackSubmitForm.tsx:56-58 | two types with the same option value give the same option, so keeping the last or the first is the same |
| FeedbackForm.DedupFrom | components/feedback/FeedbackSubmitForm.tsx:56-58 | deduplication keeps one option per value, drops no value, and adds no option |
| FeedbackForm.DedupInOrder | components/feedback/FeedbackSubmitForm.tsx:56-58 | first-appearance order: the options of a concatenation are those of the first part followed by those of the second whose values the first did not give, and one option is kept exactly when its value is new |
| FeedbackForm.OptionsOf | components/feedback/FeedbackSubmitForm.tsx:42-54 | one option per type, in order |
| FeedbackForm.FeedbackTypeOptions | components/feedback/FeedbackSubmitForm.tsx:34-59 | without usable config types the defaults are shown; otherwise the options are the deduplication of the types' options, in order of first appearance: distinct values, every value of the trimmed non-blank types, each the option of such a type |
| FeedbackForm.OptionsComeFromTypes | components/feedback/FeedbackSubmitForm.tsx:42-58 | options drawn from the types' options are each the option of some type |
| FeedbackForm.FeedbackSubmitForm.constructor | components/feedback/FeedbackSubmitForm.tsx:29-32 | the form starts with nothing selected and every text empty |
| FeedbackForm.FeedbackSubmitForm.IsOtherTypeConfirmed | components/feedback/FeedbackSubmitForm.tsx:69-74 | a confirmed other type is a trimmed text taken from an input that is not blank |
| FeedbackForm.FeedbackSubmitForm.ResolvedTypeList | components/feedback/FeedbackSubmitForm.tsx:75-83 | at most one type; none exactly when nothing is selected or "other" is unconfirmed; the one type is the selected type or the confirmed trimmed input, never empty |
| FeedbackForm.FeedbackSubmitForm.CanSubmit | components/feedback/FeedbackSubmitForm.tsx:84-97 | the form can be submitted exactly when exactly one type is resolved |
| FeedbackForm.FeedbackSubmitForm.ResetState | components/feedback/FeedbackSubmitForm.tsx:99-104 | resetting clears all four fields, and the form cannot be submitted |
| FeedbackForm.FeedbackSubmitForm.HandleCancel | components/feedback/FeedbackSubmitForm.tsx:106-109 | cancelling resets the form |
| FeedbackForm.FeedbackSubmitForm.HandleTypeChange | components/feedback/FeedbackSubmitForm.tsx:111-118 | the selection becomes the value; a non-other value clears the other input and its confirmation and is submittable at once |
| FeedbackForm.FeedbackSubmitForm.HandleOtherTypeConfirm | components/feedback/FeedbackSubmitForm.tsx:120-128 | confirming is refused, changing nothing, exactly for blank input; otherwise the trimmed input becomes the confirmed type |
| FeedbackForm.FeedbackSubmitForm.HandleOtherTypeCancel | components/feedback/FeedbackSubmitForm.tsx:130-134 | cancelling the other type drops the selection, the input and the confirmation |
| FeedbackForm.FeedbackSubmitForm.HandleOtherTypeInputChange | components/feedback/FeedbackSubmitForm.tsx:152-157 | editing the input keeps the confirmation exactly when the new trimmed input equals it |
| FeedbackForm.FeedbackSubmitForm.HandleDescriptionChange | components/feedback/FeedbackSubmitForm.tsx:230 | editing the description changes only the description and keeps the confirmed other type trimmed |
| FeedbackForm.FeedbackSubmitForm.HandleSubmit | components/feedback/FeedbackSubmitForm.tsx:136-150 | `onSubmit` is called exactly when the form can be submitted, with the one resolved type and the trimmed description; the form resets unless `onSubmit` returned false or threw |
| AgentPage.ToDisplayText | components/agent/AgentPageClient.tsx:22-25 | the trimmed value, or the fallback when it is blank |
| AgentPage.ToSessionTimeLabel | components/agent/AgentPageClient.tsx:27-30 | a session's time label is trimmed and never empty: the trimmed value, else 刚刚更新 |
| AgentPage.ConversationItemOf | components/agent/AgentPageClient.tsx:95-115 | a session entry is keyed by its id, titled by its title or 会话 n, and labelled by its update time, else its creation time |
| AgentPage.ConversationItems | components/agent/AgentPageClient.tsx:93-117 | one entry per session, in order, the n-th falling back to the title 会话 n |
| AgentPage.CollapseSpace | components/agent/AgentPageClient.tsx:33 | after `replace(/\s+/g, ' ')` every white space is a single space, no two spaces are adjacent, and the first character is a space exactly when the text starts with white space |
| AgentPage.CollapseByReference | components/agent/AgentPageClient.tsx:33 | each maximal run of white space becomes exactly one space: the result equals the reference reading that maps every white space to a space and then drops each space that follows a space |
| AgentPage.CollapseKeepsText | components/agent/AgentPageClient.tsx:33 | collapsing keeps every character that is not white space, in order |
| AgentPage.CollapseBlank | components/agent/AgentPageClient.tsx:33-35 | a text is blank exactly when its collapsed form is |
| AgentPage.NonSpaceTrim | components/agent/AgentPageClient.tsx:33 | trimming keeps every character that is not white space |
| AgentPage.ToToolResultSummary | components/agent/AgentPageClient.tsx:32-41 | the summary is at most 183 characters, empty exactly for blank text, the whole normalized text when it is at most 180 characters, and otherwise its first 180 characters followed by '...' |
| AgentPage.SummaryKeepsText | components/agent/AgentPageClient.tsx:32-38 | a summary short enough to be shown whole loses only white space |
| AgentPage.ToolCallText | components/agent/AgentPageClient.tsx:257-263 | a tool-call bubble names the tool (工具 when blank) and shows an arguments line exactly when the trimmed arguments are non-empty |
| AgentPage.ToolResultName | components/agent/AgentPageClient.tsx:267-270 | a tool result is named by its trimmed tool name when that is not blank; an empty tool name defers to the trimmed call id; a blank but non-empty tool name, or an empty one with a blank call id, gives 工具 |
| AgentPage.ToolResultText | components/agent/AgentPageClient.tsx:271-278 | a tool-result bubble shows the summary when the result is not blank, and says the result returned otherwise |
| AgentPage.ResolvedActiveSessionId | components/agent/AgentPageClient.tsx:65 | the active session is the selected one, else the first listed, else '' |
| AgentPage.Transcript | components/agent/AgentPageClient.tsx:61 | the lines shown are the bubbles' roles and texts, in order |
| AgentPage.HistoryLines | components/agent/AgentPageClient.tsx:119-127 | a user record shows as the user, any other as the assistant, one per record in order |
| AgentPage.HistoryBubbles | components/agent/AgentPageClient.tsx:119-127 | history bubbles show the history lines under fresh distinct keys |
| AgentPage.Rewrite | components/agent/AgentPageClient.tsx:241-253 | only the bubble with the given key takes the new text and stops loading; every other bubble is unchanged |
| AgentPage.RewriteAt | components/agent/AgentPageClient.tsx:241-253 | with distinct keys, rewriting a bubble updates exactly its one position |
| AgentPage.FinalText | components/agent/AgentPageClient.tsx:285-323 | the final assistant text is the streamed content, else the placeholder for success or the one for failure, never empty |
| AgentPage.FailureNotice | components/agent/AgentPageClient.tsx:304-307 | no toast exactly on success or on an aborted stream; a refused request shows its error's message |
| AgentPage.TurnSession | components/agent/AgentPageClient.tsx:192-203 | a submission goes to the active session, or else to a new session titled with the first 20 characters of the message |
| AgentPage.AgentChat.constructor | components/agent/AgentPageClient.tsx:59-62 | the page starts with no session selected, an empty sender, no bubbles and no stream |
| AgentPage.AgentChat.AppendBubble | components/agent/AgentPageClient.tsx:43-53 | appending a bubble uses a fresh key and changes nothing else |
| AgentPage.AgentChat.BeginTurn | components/agent/AgentPageClient.tsx:191-227 | the sender is cleared; a session is created when none is active, and a failure is reported and leaves the bubbles alone; otherwise the user's message and a loading assistant bubble are appended after the current bubbles or the history, and streaming starts |
| AgentPage.AgentChat.ApplyEvent | components/agent/AgentPageClient.tsx:238-280 | a content event appends its text to the assistant text and rewrites only the assistant bubble; a tool event appends one system bubble with its text |
| AgentPage.AgentChat.ApplySignal | components/agent/AgentPageClient.tsx:238-280 | one callback adds its content to the assistant text and its system bubble after the bubbles behind the assistant bubble, leaving the bubbles before it untouched |
| AgentPage.AgentChat.FinishTurn | components/agent/AgentPageClient.tsx:285-328 | the assistant bubble takes its final text, the failure toast is chosen, and streaming stops |
| AgentPage.AgentChat.Deliver | components/agent/AgentPageClient.tsx:238-280 | over the whole reply, the assistant text is the contents in arrival order, and exactly one system bubble is appended per tool event |
| AgentPage.AgentChat.ReceiveReply | components/agent/AgentPageClient.tsx:231-328 | after the reply, the assistant bubble holds the final text and the tool bubbles follow it, with the failure toast |
| AgentPage.AgentChat.SubmitMessage | components/agent/AgentPageClient.tsx:191-328 | a submission ends with the base bubbles, the user's message, the final assistant text and one bubble per tool event, streaming stopped, and the toast of the stream's outcome |
| AgentPage.AgentChat.HandleSubmit | components/agent/AgentPageClient.tsx:186-329 | blank input, or input while streaming, is ignored; otherwise the message is submitted as specified |
| AgentPage.AgentChat.HandleCreateSession | components/agent/AgentPageClient.tsx:158-173 | refused with a warning while streaming; otherwise a new untitled session becomes the selected one with an empty chat, or the failure is shown and nothing changes |
| AgentPage.AgentChat.HandleSessionChange | components/agent/AgentPageClient.tsx:175-184 | refused with a warning while streaming; otherwise the chosen session becomes the selected one and the sender and bubbles are cleared |
| AgentPage.TurnTranscript | components/agent/AgentPageClient.tsx:285-297 | the bubbles of a finished turn are those before the assistant bubble, the assistant bubble with its final text, then the tool bubbles |
| AgentPage.ReplyTranscript | components/agent/AgentPageClient.tsx:285-297 | after the final rewrite, the assistant bubble (last when the turn started) holds the final text and the tool bubbles follow it |
| AgentPage.SubmitTranscript | components/agent/AgentPageClient.tsx:208-297 | the transcript of a submission is the base, the user's message, the reply in place of the loading bubble, then the tool bubbles |

## Left out

- Transport: `request`, `fetch`, `Response`, `ReadableStream` and `response.json()` are I/O. They are parameters (`server`, `post`, `get`, `createSession`), or their results are inputs (list items, the config result). The thin pass-through request wrappers hold no logic of their own and are not modelled: `cancelMyPost`, `deleteMyPost`, `reviewClaim`, `getClaimList`, `getPostDetailData` and `getLostFoundItemDetail`. Their id normalisation is modelled as `LostFound.ToQueryId`.
- UTF-8 decoding (`TextDecoder` in streaming mode) is not modelled. Chunks are already-decoded strings, so multi-byte characters split across chunks are outside the model.
- `JSON.parse` and `JSON.stringify` are not modelled. Parsing is the parameter `parse`, with `None` for a throw.
- Cancellation through `AbortController`: the abort is one of the ways a read or a fetch can end (`Aborted`). The `useEffect` that aborts on unmount is not modelled.
- Concurrency: `Promise.all` in `submitFeedbackRequest` is replaced by the list of request payloads, and the feedback ids returned are not modelled. React's batching of state updates is modelled as sequential updates.
- React Query is not modelled: its hooks, its cache and `invalidateQueries`. The query keys themselves are modelled.
- Rendering, scrolling, toasts other than their texts, and routing are not modelled.
- `router.replace` is modelled as the URL pairs last written. The text encoding of `URLSearchParams.toString()` is left abstract.
- Numbers: `Number()` on strings is modelled for decimal-integer forms (optionally signed) and `Infinity` only. Other numeric strings, such as fractions, exponents and hex, become NaN.
- Js.ToNumber: `Number()` on an array goes through its string form; the model gives 0 for an empty array, the number of its one element (a nested array recursively, a boolean or an object NaN), and NaN for two or more elements.
- LostFound.ToQueryId: a truncated finite number is written in plain decimal. `String()` writes magnitudes of 1e21 and above in exponent form, and that form is not modelled; ids stay far below it.
- Lengths and `slice` count characters (Unicode scalar values), not UTF-16 code units.
- `toUpperCase` is modelled for ASCII letters only. Every code the resolvers compare against is ASCII or has no letters.
- Object key order is not modelled: maps are unordered.
- Imported collaborators are parameters: `isWithinTimeRange`, `toTimestamp`, `STATUS_OPTIONS`, `TIME_RANGE_OPTIONS`, `FEEDBACK_TYPE_OPTIONS` and `FEEDBACK_TYPE_OTHER_VALUE`. The files that define them are not part of this model.
- `createBubbleKey` uses the clock and randomness. It is modelled as a counter of fresh keys, which the model proves distinct.
- FeedbackForm.DedupFrom: keeps each value's first option where `new Map` keeps its last. The two are equal because options with the same value are equal (`SameValueSameOption`); the first-appearance order of the keys is stated by `DedupInOrder`.
- AgentPage.AgentChat.HandleSubmit: the asynchronous handler is split into phases (guard, session, opening bubbles, streamed events, completion), run one after the other. The intermediate renders between awaits are not stated.
- AgentPage.FailureNotice: a failure that is not an `ApiRequestError` (a network error) shows the platform's own message (`PlatformError`). The text of that message is not modelled, and neither is the fallback "发送失败，请稍后重试" for non-`Error` values, which the stream never raises.
- AgentPage.AgentChat.HandleSessionChange: the conversation key is taken as a string (`String(sessionId)` on a string key).
- QueryPage.SortNewestFirst: the sort is an insertion sort that keeps earlier items first among equal timestamps, like the stable `Array.prototype.sort`. Stability itself is not stated as a lemma.
- Public.ToPublicConfig: the declared element types of the lists (`string[]`) are not checked. The lists are passed on as received, as the code does.
