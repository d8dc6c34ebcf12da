# sendyourai-agent core, modelled in Dafny

This project models the deterministic components that sit around the AI and
vendor calls of the sendyourai-agent repository:

- **Blog store** (`BlogManager`). It keeps posts, categories and tags in three
  insertion-ordered maps, with create, update, delete, lookup, slug
  derivation, reading time, and a listing that filters, sorts newest first and
  paginates.
- **Zapier webhook registry** (`ZapierClient`). It creates active catch-hook
  webhooks, lists and deletes them, and triggers them through a guarded `POST`.
- **Healthcare text heuristics** (`HealthcareAIService` helpers). These cover
  urgency by keyword priority, the combined-analysis format, `{{key}}`
  substitution, the reading level, and the extraction of a recommendation, a
  timeframe and a reason by lazy regular expressions, with fallback sentences.
- **E-mail builders** (`SendGridService`, `SendGridClient`). These build one
  message per recipient and handle content, template fields and the
  missing-content error.
- **Lead generation agent.** It decodes untyped payload leads with defaults,
  merges enrichment and scoring data, and falls back when the dispatch fails.
- **Integration factory.** It routes a (category, type) pair to a client kind
  or to the matching error.
- **Marketing scheduling and design agents.** Their requests, and the
  normalisation of their payload arrays into records with defaults.

## How it is modelled

Every operation is a pure function. A store transition returns the new store,
or only the error, so a failed call leaves the caller's store as it was.

JavaScript semantics that the code relies on are written out as their own
modules:

- `Map` insertion order (`OrderedMap`).
- The stable `Array.prototype.sort` with a descending comparator
  (`NewestFirst`, an insertion sort).
- `slice` with negative and clamped indices, `filter`, `findIndex`, and a
  `map` whose callback may throw (`Sequences`).
- Untyped values (`Values`):
  - truthiness (`||`) and nullishness (`??`);
  - property reads that throw on `null` and `undefined`;
  - optional chaining and object spread.
- The regular-expression classes `\s`, `\w`, `[.!?]`, and `split` on a run
  pattern (`Text`).

Ids (`crypto.randomUUID`, `uuidv4`) and clock readings (`new Date()`) are
parameters. So are the HTTP status a webhook answers with and whether the mail
service's `send` fails. The shared `queueAction` dispatcher is not modelled.
An agent facade is a function of the reply it receives: either a payload or a
rejection (`AgentActions.Reply`).

### Which match the `extract*` helpers take

The `extract*` helpers use `s.match(/keyword.*?[.!?]/i)`. That match starts at
the leftmost position where the WHOLE pattern matches. It does not always start
at the leftmost occurrence of the keyword. Suppose the first keyword is
followed by a line break before any `.`, `!` or `?`. Then the match starts at a
later occurrence of the keyword. `HealthcareAI.FindCue` models this leftmost
whole-pattern match.

## Model

| member | source | states |
|---|---|---|
| BlogManager.NewStore | src/lib/blog/BlogManager.ts:10-14 | A new store has no posts, categories or tags. |
| BlogManager.DropDisallowed | src/lib/blog/BlogManager.ts:232 | The result is exactly the input's word characters, white space and `-`, in their order: it equals the reference filter by that class. Input already made of these characters is returned unchanged. |
| BlogManager.DashSpaceRuns | src/lib/blog/BlogManager.ts:233 | The result has no white space, and every character is `-` or comes from the input. Input without white space is returned unchanged. |
| BlogManager.DashSpaceRunsSplits | src/lib/blog/BlogManager.ts:233 | A white-space run between two stretches that do not touch white space becomes exactly one `-`, and the stretches on either side are rewritten independently. |
| BlogManager.GenerateSlug | src/lib/blog/BlogManager.ts:229-234 | Every character of a slug is a lower-case ASCII letter, a digit, `_` or `-`. A title made only of such characters is its own slug. |
| BlogManager.SlugJoinsWords | src/lib/blog/BlogManager.ts:229-234 | Two stretches without white space, joined by a white-space run, slug to their two slugs joined by a single `-`. |
| BlogManager.SlugIdempotent | src/lib/blog/BlogManager.ts:229-234 | Slugging a slug gives the same slug. |
| BlogManager.ReadingTime | src/lib/blog/BlogManager.ts:236-240 | The result is ceil(words / 200), where words counts the white-space separated words of the content. Content without words counts as one word, so the result is never below 1. |
| BlogManager.CreatePost | src/lib/blog/BlogManager.ts:17-28 | The post is stored under the fresh id. Its slug is the title's slug, its reading time is the content's, and every other field is the draft's. Categories and tags are untouched. A fresh id adds one entry at the end of the insertion order; an existing id keeps its place. |
| BlogManager.GetPost | src/lib/blog/BlogManager.ts:69-79 | Returns the stored post exactly when the id is stored; otherwise fails with NOT_FOUND (404). |
| BlogManager.UpdatePost | src/lib/blog/BlogManager.ts:39-57 | Fails with NOT_FOUND exactly for an unknown id. Otherwise the stored post, with the supplied fields overriding it and `updatedAt` set to now, replaces the old post in place. The insertion order and the other maps are unchanged. |
| BlogTypes.PatchPostKeepsUnsupplied | src/lib/blog/BlogManager.ts:49-53 | An update without fields changes nothing. A supplied title wins. An update that does not supply a slug or reading time keeps the old ones; they are not recomputed. |
| BlogTypes.PatchCategoryKeepsUnsupplied | src/lib/blog/BlogManager.ts:159-162 | An empty category update changes nothing, and the slug is not recomputed from a new name. |
| BlogTypes.PatchTagKeepsUnsupplied | src/lib/blog/BlogManager.ts:205-208 | An empty tag update changes nothing, and the slug is not recomputed from a new name. |
| BlogManager.DeletePost | src/lib/blog/BlogManager.ts:59-67 | Succeeds exactly when the id was stored. It removes just that post, so there is one post fewer; the remaining posts keep their insertion order, and categories and tags are untouched. |
| BlogManager.DeleteThenMissing | src/lib/blog/BlogManager.ts:59-79 | After a successful delete, both looking the post up and deleting it again fail with NOT_FOUND. |
| BlogManager.GetPostBySlug | src/lib/blog/BlogManager.ts:81-91 | Returns the first post in insertion order that has the slug. Fails with NOT_FOUND exactly when no stored post has that slug. |
| BlogManager.NarrowSelects | src/lib/blog/BlogManager.ts:105-116 | The chain of filters (category if non-empty, tag if non-empty, status if given) keeps exactly the posts that pass every supplied filter, in their order. |
| BlogManager.SelectedFromSource | src/lib/blog/BlogManager.ts:105-116 | Every selected post comes from the input and passes the filters. |
| BlogManager.PageWindow | src/lib/blog/BlogManager.ts:124-126 | For a page and a limit of at least 1, `slice(start, start + limit)` holds at most `limit` entries: those from `start` onwards, clipped to the array. |
| BlogManager.Window | src/lib/blog/BlogManager.ts:122-126 | The page is always a contiguous window of the sorted posts. For a page and a limit of at least 1 it is the page-th run of `limit` posts. |
| BlogManager.ListPosts | src/lib/blog/BlogManager.ts:93-134 | Every listed post is stored and passes every supplied filter, and the page is newest first. The page is the requested window of all selected posts after the stable newest-first sort. `total` counts all selected posts, `page` defaults to 1, and `totalPages` is ceil(total / limit) with the limit defaulting to 10. |
| BlogManager.CreateCategory | src/lib/blog/BlogManager.ts:137-147 | The category is stored under the fresh id with the slug of its name, and every other field is the draft's. Posts and tags are untouched. A fresh id goes at the end of the insertion order, after the existing categories in their order; an existing id keeps its place. |
| BlogManager.UpdateCategory | src/lib/blog/BlogManager.ts:149-166 | Fails with NOT_FOUND exactly for an unknown id. Otherwise the supplied fields override the category in place, and nothing else changes. |
| BlogManager.DeleteCategory | src/lib/blog/BlogManager.ts:168-176 | Succeeds exactly when the id was stored, and removes just that category. The remaining categories keep their insertion order, and posts and tags are untouched. |
| BlogManager.ListCategories | src/lib/blog/BlogManager.ts:178-180 | One entry per key, in insertion order: entry i is the category stored under the i-th key. Every stored category appears and nothing else does. |
| BlogManager.CreateTag | src/lib/blog/BlogManager.ts:183-193 | The tag is stored under the fresh id with the slug of its name. Posts and categories are untouched. A fresh id goes at the end of the insertion order, after the existing tags in their order; an existing id keeps its place. |
| BlogManager.UpdateTag | src/lib/blog/BlogManager.ts:195-212 | Fails with NOT_FOUND exactly for an unknown id. Otherwise the supplied fields override the tag in place. |
| BlogManager.DeleteTag | src/lib/blog/BlogManager.ts:214-222 | Succeeds exactly when the id was stored, and removes just that tag. The remaining tags keep their insertion order, and posts and categories are untouched. |
| BlogManager.ListTags | src/lib/blog/BlogManager.ts:224-226 | One entry per key, in insertion order: entry i is the tag stored under the i-th key. Every stored tag appears and nothing else does. |
| NewestFirst.Sort | src/lib/blog/BlogManager.ts:119 | The sorted posts are a permutation of the input, in descending `publishedAt` order. |
| NewestFirst.SortIsStable | src/lib/blog/BlogManager.ts:119 | Posts published at the same instant keep their relative order. |
| NewestFirst.WindowDescending | src/lib/blog/BlogManager.ts:126 | A page cut from a newest-first list is itself newest first. |
| OrderedMap.Get | src/lib/blog/BlogManager.ts:70 | `map.get` finds a value exactly when the key is stored, and returns that key's value. |
| OrderedMap.Set | src/lib/blog/BlogManager.ts:27 | `map.set` binds the key. An existing key keeps its place in the order; a new key goes last. |
| OrderedMap.Delete | src/lib/blog/BlogManager.ts:60 | `map.delete` reports whether the key was stored, and removes only that key. |
| OrderedMap.Without | src/lib/blog/BlogManager.ts:60 | Deleting a key leaves the other keys in their relative order: the new order is the old one filtered by `k !== key`. |
| OrderedMap.Values | src/lib/blog/BlogManager.ts:105 | `values()` yields one value per key, in insertion order. |
| OrderedMap.ValuesAreEntries | src/lib/blog/BlogManager.ts:179 | A value is listed exactly when some key maps to it. |
| Sequences.Slice | src/lib/blog/BlogManager.ts:126 | For non-negative bounds, `slice` is the window between the bounds, clipped to the array. A negative bound counts back from the end (clamped at 0), and the result is empty when the resolved end does not lie past the resolved start. |
| Sequences.SliceIsWindow | src/lib/blog/BlogManager.ts:126 | Any `slice` is a contiguous window of the array. |
| Sequences.FindIndex | src/lib/blog/BlogManager.ts:82 | `find` returns the first element that satisfies the test, or nothing when none does. |
| Sequences.FilterMembers | src/lib/blog/BlogManager.ts:109 | `filter` keeps exactly the elements that pass the test. |
| Sequences.TryMap | src/lib/agents/sales/agents/LeadGenerationAgent.ts:28 | `map` with a callback that may throw yields every result when no call throws. Otherwise it yields the error of the first call that throws. |
| Numbers.CeilDiv | src/lib/blog/BlogManager.ts:132 | The result is the least integer not below the quotient, for divisors of either sign. |
| Text.Trim | src/lib/blog/BlogManager.ts:238 | `trim` returns a contiguous part of the input, with only white space cut off before and after it, and neither end of the result is white space. A string with no white space at either end is returned unchanged. |
| Text.TrimmedPieces | src/lib/blog/BlogManager.ts:238 | `s.trim().split(/\s+/).length` is the number of words of `s`, or 1 when `s` has no word. |
| Text.WordsTrim | src/lib/blog/BlogManager.ts:238 | Trimming never changes the number of words. |
| Text.SeparatorsAreRuns | src/lib/healthcare/ai/HealthcareAIService.ts:245-246 | `split` on a run pattern finds one separator per maximal run of separator characters. |
| Text.Lower | src/lib/healthcare/ai/HealthcareAIService.ts:222 | `toLowerCase` keeps the length and lowers each ASCII capital. |
| Text.LowerConcat | src/lib/healthcare/ai/HealthcareAIService.ts:222 | Lowering a concatenation lowers each part. |
| Text.ContainsAppend | src/lib/healthcare/ai/HealthcareAIService.ts:223-225 | An occurrence that `includes` finds is still found after more text is appended. |
| ZapierClient.NewClient | src/lib/zapier/ZapierClient.ts:20-23 | A new client has the account id and no webhooks. |
| ZapierClient.CreateWebhook | src/lib/zapier/ZapierClient.ts:25-35 | The webhook is active, has the event, and has the URL `https://hooks.zapier.com/hooks/catch/<accountId>/<token>`. It is stored under its id, and a fresh id adds exactly one webhook, at the end. |
| ZapierClient.ListWebhooks | src/lib/zapier/ZapierClient.ts:37-39 | One webhook per id, in creation order: entry i is the webhook stored under the i-th id. Every stored webhook appears and nothing else does. |
| ZapierClient.DeleteWebhook | src/lib/zapier/ZapierClient.ts:41-43 | Returns true exactly when the id was stored. Afterwards the id is absent, every other webhook is untouched, and the rest keep their creation order. |
| ZapierClient.TriggerWebhook | src/lib/zapier/ZapierClient.ts:45-68 | An unknown or inactive webhook fails with NOT_FOUND (404), and no request is sent. Otherwise one JSON `POST` of the body goes to the webhook's URL. The trigger succeeds exactly for a status in 200-299; any other status fails with INTEGRATION_ERROR carrying that status. |
| ZapierClient.CreatedWebhookTriggers | src/lib/zapier/ZapierClient.ts:25-59 | A freshly created webhook is listed, and triggering it posts to its catch-hook URL. |
| ZapierClient.DeletedWebhookUnavailable | src/lib/zapier/ZapierClient.ts:41-53 | A deleted webhook cannot be triggered, and deleting it again returns false. |
| HealthcareAI.DetermineUrgency | src/lib/healthcare/ai/HealthcareAIService.ts:221-227 | In the lower-cased combined text: emergency iff "emergency" or "immediate" occurs. Otherwise high iff "urgent" or "high risk" occurs. Otherwise medium iff "moderate" or "soon" occurs. Otherwise low. |
| HealthcareAI.UrgencyCaseInsensitive | src/lib/healthcare/ai/HealthcareAIService.ts:222 | Inputs that differ only in letter case get the same urgency. |
| HealthcareAI.UrgencyNeverDrops | src/lib/healthcare/ai/HealthcareAIService.ts:221-227 | Appending verification text never lowers the urgency. |
| HealthcareAI.CombineAnalysis | src/lib/healthcare/ai/HealthcareAIService.ts:229-231 | The result is the label "Primary Analysis: ", then the analysis, then "\nVerification: ", then the verification, with nothing else. |
| HealthcareAI.SplitAnalysis | src/lib/healthcare/ai/HealthcareAIService.ts:229-231 | Any split it finds recombines to its input, with an analysis free of line breaks. |
| HealthcareAI.CombineSplits | src/lib/healthcare/ai/HealthcareAIService.ts:229-231 | An analysis without line breaks and any verification are recovered from their combination. |
| HealthcareAI.PlaceholderAt | src/lib/healthcare/ai/HealthcareAIService.ts:235 | Finds the `{{key}}` at the head of the text exactly when there is one, with the key's full length. |
| HealthcareAI.AdaptContent | src/lib/healthcare/ai/HealthcareAIService.ts:233-236 | Text without `{{` comes back unchanged. The rest of its behaviour is fixed by `AdaptPlaceholder` (a complete `{{key}}` at the head becomes its context value) and `AdaptPlainChar` (any other head character is copied). |
| HealthcareAI.AdaptWithoutPlaceholders | src/lib/healthcare/ai/HealthcareAIService.ts:233-236 | Text without `{{` is returned unchanged. |
| HealthcareAI.AdaptPlaceholder | src/lib/healthcare/ai/HealthcareAIService.ts:233-236 | A `{{key}}` at the head becomes the context value, or `""` when the key is absent. Substitution then carries on right after the placeholder. |
| HealthcareAI.AdaptPlainChar | src/lib/healthcare/ai/HealthcareAIService.ts:233-236 | A head character that does not open a complete placeholder, including a stray `{`, is copied, and substitution carries on after it. |
| HealthcareAI.SplitWordCount | src/lib/healthcare/ai/HealthcareAIService.ts:245 | The word count is one more than the number of white-space runs. For text with no white space at either end, this is the number of words. |
| HealthcareAI.SplitSentenceCount | src/lib/healthcare/ai/HealthcareAIService.ts:246 | The sentence count is one more than the number of runs of `.`, `!` and `?`. |
| HealthcareAI.DetermineReadingLevel | src/lib/healthcare/ai/HealthcareAIService.ts:243-252 | Advanced iff words > 20·sentences; Intermediate iff 15·sentences < words ≤ 20·sentences; Basic iff words ≤ 15·sentences. |
| HealthcareAI.CloseFrom | src/lib/healthcare/ai/HealthcareAIService.ts:255 | Finds where `.*?[.!?]` stops: the first sentence punctuation with no line break before it. Finds nothing when there is no such place. |
| HealthcareAI.SearchFrom | src/lib/healthcare/ai/HealthcareAIService.ts:255 | Returns the first start, from the given position on, at which the whole pattern matches. Returns nothing when the pattern matches at no such start. |
| HealthcareAI.FindCue | src/lib/healthcare/ai/HealthcareAIService.ts:255 | `match(...)?.[0]`: a result exists iff the pattern matches somewhere. The result is the leftmost whole match, ending at its first possible end, and trimming does not change it. |
| HealthcareAI.MatchIsTrimmed | src/lib/healthcare/ai/HealthcareAIService.ts:258 | A match starts with a letter and ends with punctuation, so `trim` leaves it as it is. |
| HealthcareAI.Extract | src/lib/healthcare/ai/HealthcareAIService.ts:254-273 | The first match in the initial text if there is one; otherwise the first match in the verified text; otherwise the fallback sentence. The result is trimmed. |
| HealthcareAI.ExtractRecommendation | src/lib/healthcare/ai/HealthcareAIService.ts:254-259 | As for `Extract`, with `recommend.*?[.!?]` and "No specific recommendation provided." |
| HealthcareAI.ExtractTimeframe | src/lib/healthcare/ai/HealthcareAIService.ts:261-266 | As for `Extract`, with `within \d+.*?[.!?]` and "No specific timeframe provided." |
| HealthcareAI.ExtractReason | src/lib/healthcare/ai/HealthcareAIService.ts:268-273 | As for `Extract`, with `because.*?[.!?]` and "No specific reason provided." |
| SendGridService.SendEmail | src/lib/integrations/email/SendGridService.ts:18-45 | Passes every parameter through, with a missing text sent as `""`. Fails with INTEGRATION_ERROR (500) exactly when the send fails. |
| SendGridService.SingleAgreesWithBulk | src/lib/integrations/email/SendGridService.ts:18-113 | A single send and a bulk send to that one recipient agree on recipient, sender, subject, outcome, a given text and a given template. Where the bulk send adds a blank placeholder, the single send passes the empty text. |
| SendGridService.TemplateContent | src/lib/integrations/email/SendGridService.ts:60-65 | Exactly one `text/plain` item: the text, or `" "` when the text is empty or absent. |
| SendGridService.PlainContent | src/lib/integrations/email/SendGridService.ts:77-97 | A `text/plain` item appears iff the text is non-empty, and a `text/html` item appears iff the HTML is non-empty, in that order. When neither appears, the content is a single blank `text/plain` item. |
| SendGridService.BulkMessage | src/lib/integrations/email/SendGridService.ts:57-106 | Each message goes to its recipient with the shared sender and subject. With a template id it carries the template content, id and data. Without one it carries the plain content and no template fields. |
| SendGridService.SendBulkEmails | src/lib/integrations/email/SendGridService.ts:47-117 | One message per recipient, in order. Every message has at least one content item, and no item is empty. The call fails with INTEGRATION_ERROR (500) exactly when the send fails. |
| SendGridService.GetEmailTemplate | src/lib/integrations/email/SendGridService.ts:120-133 | The record's id is the requested id. |
| SendGridService.CreateEmailTemplate | src/lib/integrations/email/SendGridService.ts:135-148 | Always returns the placeholder id `new-template-id`. |
| SendGridClient.SingleContent | src/lib/integrations/email/SendGridClient.ts:29-31 | A non-empty text gives a `text/plain` item with the text. Otherwise the item is `text/html` with the HTML. The value is never empty. |
| SendGridClient.ClientMessage | src/lib/integrations/email/SendGridClient.ts:25-39 | There is exactly one content item. The template id is set iff a non-empty one is given. The template data is set iff the template id is set and data is given. |
| SendGridClient.SendEmail | src/lib/integrations/email/SendGridClient.ts:12-42 | Fails with "Either text or html content must be provided." exactly when both text and HTML are empty or absent, and builds no message then. Otherwise builds the recipient's message. |
| SendGridClient.SendBulkEmails | src/lib/integrations/email/SendGridClient.ts:45-79 | Fails like `sendEmail`, before building any message. Otherwise builds one message per recipient, in order. |
| SendGridClient.BulkIsSingleSends | src/lib/integrations/email/SendGridClient.ts:12-79 | The bulk send fails exactly when a single send fails. When it succeeds, it builds for each recipient the message a single send builds. |
| SendGridClient.SameContentForAll | src/lib/integrations/email/SendGridClient.ts:58-76 | Bulk messages differ only in the recipient. |
| LeadGeneration.DecodeCompany | src/lib/agents/sales/agents/LeadGenerationAgent.ts:82-87 | The company has exactly the keys name, industry, size and location. Each is the payload's truthy value, or `""`. |
| LeadGeneration.DecodeContact | src/lib/agents/sales/agents/LeadGenerationAgent.ts:88-93 | The contact has exactly the keys name, title, email and phone. Name, title and email default to `""`. The phone is the payload's when truthy, and `undefined` for every falsy one. |
| LeadGeneration.TransformToLead | src/lib/agents/sales/agents/LeadGenerationAgent.ts:78-99 | A `null` or `undefined` item throws. Otherwise the lead takes: the id from the payload, or else the fresh id; source and notes from the payload, or else `""`; the score only if it is a number, else 0; the status from the payload, or else `new`; a creation date parsed from the payload, or else the clock reading. |
| LeadGeneration.TransformIsDecoded | src/lib/agents/sales/agents/LeadGenerationAgent.ts:78-99 | With a non-empty fresh id, every decoded lead has a truthy id and status, a number score, a date, and fields that their own defaults leave unchanged. |
| LeadGeneration.TransformRoundTrip | src/lib/agents/sales/agents/LeadGenerationAgent.ts:78-99 | Such a lead, written back as a payload item, decodes to itself, except that its date becomes `new Date` of itself. |
| LeadGeneration.MergeLead | src/lib/agents/sales/agents/LeadGenerationAgent.ts:101-116 | Id, source and creation date stay. Company and contact are merged key by key, with new keys winning. A non-nullish new score wins, even 0. A new status or note wins only when truthy. |
| LeadGeneration.MergeEmpty | src/lib/agents/sales/agents/LeadGenerationAgent.ts:101-116 | Merging `{}` leaves the lead unchanged. |
| LeadGeneration.MergeIdempotent | src/lib/agents/sales/agents/LeadGenerationAgent.ts:101-116 | Merging the same data twice gives the same lead as merging it once. |
| LeadGeneration.ZeroScoreWinsEmptyStatusLoses | src/lib/agents/sales/agents/LeadGenerationAgent.ts:112-114 | A new score of 0 replaces the old score. An empty new status or note leaves the old one. |
| LeadGeneration.ScoreThreshold | src/lib/agents/sales/agents/LeadGenerationAgent.ts:21 | The threshold is `minScore` when that is truthy, otherwise 60. |
| LeadGeneration.FindLeadsRequest | src/lib/agents/sales/agents/LeadGenerationAgent.ts:15-23 | An `analysis` action of type `lead_generation`. It carries the criteria, the three sources, enrichment on, and the threshold. |
| LeadGeneration.EnrichRequest | src/lib/agents/sales/agents/LeadGenerationAgent.ts:37-45 | An `analysis` action of type `lead_enrichment`. It carries the lead, two sources, and both include flags on. |
| LeadGeneration.ScoreRequest | src/lib/agents/sales/agents/LeadGenerationAgent.ts:58-65 | An `analysis` action of type `lead_scoring`. It carries every lead in order, the default model, and predictions on. |
| LeadGeneration.PayloadItems | src/lib/agents/sales/agents/LeadGenerationAgent.ts:26 | The items of an array payload; none for any other payload. |
| LeadGeneration.DecodeLeads | src/lib/agents/sales/agents/LeadGenerationAgent.ts:28 | Decodes every item, in order, exactly when no item is `null` or `undefined`. |
| LeadGeneration.FindLeads | src/lib/agents/sales/agents/LeadGenerationAgent.ts:7-33 | Sends the lead-generation request. The result is no leads when the dispatch rejects, the payload is not an array, or any item throws. Otherwise it is one decoded lead per item, in order. |
| LeadGeneration.EnrichLeadData | src/lib/agents/sales/agents/LeadGenerationAgent.ts:35-54 | The lead merged with a truthy payload. The lead unchanged when the payload is falsy or the dispatch rejects. |
| LeadGeneration.ScoredData | src/lib/agents/sales/agents/LeadGenerationAgent.ts:68-70 | The data for lead i is item i of an array payload when that item is truthy, otherwise `{}`. It is never nullish. |
| LeadGeneration.ScoreLeads | src/lib/agents/sales/agents/LeadGenerationAgent.ts:56-76 | As many leads as given. Each is merged with the data at its index. The leads are unchanged when the dispatch rejects or the payload is not an array. |
| IntegrationFactory.Construct | src/lib/integrations/IntegrationFactory.ts:39-79 | Gmail, Salesforce and Google Drive get the whole configuration. The other clients read properties of it, and fail exactly when it is `null` or `undefined`. |
| IntegrationFactory.CreateProvider | src/lib/integrations/IntegrationFactory.ts:19-83 | An unknown category fails with "Unsupported integration category: …". An unknown type in a known category fails with that category's own message. Success only for the seven supported pairs, each building its own client kind. A supported pair with a configuration that is not nullish always succeeds. |
| IntegrationFactory.Built | src/lib/integrations/IntegrationFactory.ts:19-34 | A constructed client is passed through. A configuration read that throws becomes the factory's error. |
| IntegrationFactory.RoutingIgnoresConfig | src/lib/integrations/IntegrationFactory.ts:19-83 | The configuration never decides the route. Two configurations give the same client kind, or the same routing error. |
| MarketingScheduling.ScheduleRequest | src/lib/agents/marketing/agents/SchedulingAgent.ts:28-36 | An `analysis` action of type `schedule_creation`. It carries the content, duration and channels, and optimises for engagement. |
| MarketingScheduling.ToEntry | src/lib/agents/marketing/agents/SchedulingAgent.ts:40-45 | A `null` or `undefined` item throws. Otherwise falsy fields take defaults: the date becomes the clock reading, channel and content id become `""`, and the status becomes `failed`. Truthy values pass through unchecked. |
| MarketingScheduling.NormaliseSchedule | src/lib/agents/marketing/agents/SchedulingAgent.ts:39-49 | A non-array payload gives no entries. An array gives one entry per item, in order, exactly when no item throws. |
| MarketingScheduling.CreateSchedule | src/lib/agents/marketing/agents/SchedulingAgent.ts:6-50 | Sends the schedule request. With no `catch`, a rejected dispatch or a throwing item rejects the call. Otherwise it yields the normalised entries. |
| MarketingScheduling.EntryRoundTrip | src/lib/agents/marketing/agents/SchedulingAgent.ts:40-45 | An entry written back as a payload item comes out unchanged, when its date and status are set and its channel and content id are strings. |
| MarketingScheduling.EmptyItemDefaults | src/lib/agents/marketing/agents/SchedulingAgent.ts:41-44 | An empty item gets every default. |
| MarketingScheduling.ExecuteCampaignRequest | src/lib/agents/marketing/agents/SchedulingAgent.ts:52-60 | A `task` action of type `campaign_execution` for the campaign, to run on schedule. |
| MarketingScheduling.UpdateScheduleRequest | src/lib/agents/marketing/agents/SchedulingAgent.ts:62-71 | A `task` action of type `schedule_update` carrying the new content, marked as an optimisation. |
| MarketingDesign.VisualsRequest | src/lib/agents/marketing/agents/DesignAgent.ts:20-29 | An `analysis` action of type `visual_generation`. It carries the copy, strategy and channels, with style `modern` and format `channel_optimized`. |
| MarketingDesign.ToVisual | src/lib/agents/marketing/agents/DesignAgent.ts:33-38 | A `null` or `undefined` item throws. Otherwise a falsy channel, url or type becomes `""`. The target date is the payload's when truthy, and `undefined` for every falsy one. |
| MarketingDesign.NormaliseVisuals | src/lib/agents/marketing/agents/DesignAgent.ts:32-42 | A non-array payload gives no visuals. An array gives one visual per item, in order, exactly when no item throws. |
| MarketingDesign.CreateVisuals | src/lib/agents/marketing/agents/DesignAgent.ts:6-43 | Sends the visuals request. A rejected dispatch or a throwing item rejects the call. Otherwise it yields the normalised visuals. |
| MarketingDesign.VisualRoundTrip | src/lib/agents/marketing/agents/DesignAgent.ts:33-38 | A visual written back as a payload item comes out unchanged, when its fields are strings. |

## Left out

- `createPost`'s `catch`, which turns a throw into DATABASE_ERROR (500): nothing in the modelled body can throw, so the branch is unreachable in the model.
- HealthcareAI.AdaptContent: its own contract covers only text without `{{`. The rest of what it does is stated by the lemmas `AdaptPlaceholder` (a complete placeholder at the head) and `AdaptPlainChar` (any other head), which together with the empty text fix its result on every input; `AdaptWithoutPlaceholders` is the corollary for text without `{{`.
- HealthcareAI.AdaptContent: context values are strings. A non-string value, such as a number that `replace` would stringify, and keys inherited from `Object.prototype` are not modelled.
- LeadGeneration.TransformRoundTrip: the date parse is not modelled, so `new Date(d)` of a date `d` is not identified with `d`; the round trip therefore holds up to the creation date.
- Text.Lower: only ASCII capitals are lowered. `toLowerCase` also lowers non-ASCII letters. The urgency keywords are ASCII, so matching is unaffected except where a non-ASCII letter lowers to ASCII. The same gap reaches BlogManager.GenerateSlug: `İ` lowers to `i` plus a combining dot and the Kelvin sign to `k`, so `"İstanbul"` slugs to `"istanbul"` in the code but to `"stanbul"` in the model.
- BlogManager.ListPosts: `page` and `limit` are integers. Fractional or NaN values, which `slice` truncates, are not modelled. `IsPage` describes the window only for a page and a limit of at least 1. Otherwise `ListPosts` states only that the page is a contiguous window of the selected posts sorted newest first (`InSortedSelection`).
- Patches (`Partial<Post>` and the others) model a field as supplied or absent. A field explicitly set to `undefined`, which a spread copies, is not modelled.
- LeadGeneration.MergeLead: spreading a string or an array as `company` or `contact` is not modelled. Their indexed properties would be copied, but the model treats every non-object value as contributing no fields.
- LeadGeneration.FindLeadsRequest: the criteria are an object, as the parameter type requires. A `null` criteria would throw at `minScore` and give `[]`.
- Dates: `new Date(raw)` is recorded as its raw payload value, and the parse is not modelled. Timestamps are integer milliseconds.
- `determineReadingLevel` divides floats. The model compares `words > 20·sentences` instead, which is the same test since the sentence count is positive.
- `extractRecommendations` and `extractReferences` (global scans, the latter with lookahead) are not modelled.
- `process*` and `getAnthropicContent` are not modelled: they depend on the response shapes of the AI SDKs.
- The `queueAction` dispatcher in src/lib/ai/AIAgent.ts is not part of this model, and neither is src/lib/utils/errors.ts. A facade receives the dispatcher's reply as a parameter, and `AppError` is a record of message, code and status. Its `details` argument is not recorded.
- Vendor and network calls are not modelled: `MailService.send`, `fetch`, and the client constructors that `IntegrationFactory` invokes. A constructed client is its kind and its constructor arguments. The HTTP status and whether a send fails are parameters.
- `console.error` logging in the `catch` blocks has no observable effect in the model.
- Asynchrony: every `async` method is modelled as its settled outcome.
