# depenados — a Dafny model of the application core

depenados is a Next.js CRUD application for a group of friends. It stores
their stories (`histórias`), events (`eventos`), members (`membros`) and a row
of "chaos counters", and it protects every create/edit behind a joke
confirmation gate: the user must complete a phrase ("na capoeira") before the
action runs. This project models the logic under the pages and proves
properties of that model:

- the four zustand client stores, as classes whose fields (`stories`,
  `events`, `members`, the three counters, `isLoading`, `error`, `filter`)
  change only as each fetch reply allows (`story_store.dfy`,
  `event_store.dfy`, `member_store.dfy`, `counter_store.dfy`);
- the API routes over an in-memory database (`database.dfy`): the singleton
  counter row, the list filters and orderings of events and stories, the
  defaults applied on create, the nickname-clash answer of the members route,
  and the guards and file classification of the upload route
  (`counters_route.dfy`, `events_route.dfy`, `stories_route.dfy`,
  `members_route.dfy`, `upload_route.dfy`);
- the confirmation hook and modal as one state machine, given both as a step
  function with trace lemmas and as a class whose handlers follow it
  (`confirmation.dfy`);
- the list helpers of the member selector, the media uploader and the
  participants strip (`member_selector.dfy`, `media_upload.dfy`,
  `participants.dfy`);
- the three forms: their schema bounds, the request each one builds and the
  create-or-update call it hands to the gate (`validation.dfy`,
  `story_form.dfy`, `event_form.dfy`, `member_form.dfy`);
- the derived views of the stories, events and home pages (`pages.dfy`).

It also has shared pieces: `Option` and the fetch outcome `Reply`
(`wrappers.dfy`); ASCII trim, lower-casing, substring search, split/join and
code-point ordering (`text.dfy`); filter, slice and a stable sort on
sequences (`seqs.dfy`); query strings and responses (`http.dfy`); the request
bodies (`payloads.dfy`); the shared record types (`types.dfy`); and the JSON
text tag lists are stored as, with an encoder, a decoder and their round trip
(`tags_json.dfy`).

Every `fetch` is an input to the model. A `Reply` is `Ok(payload)`, `NotOk`
(the response's `ok` flag is false) or `Thrown(message)`. In a route, a
database failure is a `fault` flag. The things a route gets from outside are
parameters: the fresh ids, the clock (`now`), date parsing and the Cloudinary
uploader.

## Model

| member | source | states |
|---|---|---|
| Types.ParseMediaType | src/types/story.ts:3 | a media type text is accepted iff it is image, video or audio, and is read as the type of that name |
| Types.MediaTypeRoundTrip | src/types/story.ts:3 | every media type is read back from its name |
| Types.ParseStatus | src/types/story.ts:40 | an event status text is accepted iff it is one of upcoming, ongoing, completed, cancelled |
| Types.StatusRoundTrip | src/types/story.ts:40 | every status is read back from its name |
| Types.ParseFilter | src/types/story.ts:70 | a story filter text is accepted iff it is all, featured or recent |
| Types.FilterRoundTrip | src/types/story.ts:70 | every filter is read back from its name |
| TagsJson.RoundTrip | src/stores/story-store.ts:57 | decoding the JSON text that the tag list is written as gives back the same list |
| TagsJson.SurrogatePairIsOneChar | src/stores/story-store.ts:57 | an escaped surrogate pair reads as the one character it encodes, and a lone high surrogate is refused |
| StoryStore.NormaliseStory | src/stores/story-store.ts:55-58 | normalising changes only `tags`: tag text becomes the list it decodes to, and the story fails exactly when the text does not decode as an array of strings; a list is kept; missing tags become the empty list |
| StoryStore.NormaliseFixesNormalised | src/stores/story-store.ts:57 | a story whose tags are already a list is left as it is |
| StoryStore.NormaliseIdempotent | src/stores/story-store.ts:74 | normalising twice is the same as normalising once |
| StoryStore.NormaliseStoredTags | src/stores/story-store.ts:95 | a story whose tags arrive as the stored JSON of a list comes out carrying that list |
| StoryStore.NormaliseAll | src/stores/story-store.ts:55-58 | the whole list is normalised entry by entry, in order, and fails iff one entry's tags fail to parse |
| StoryStore.NormaliseAllFixes | src/stores/story-store.ts:55-58 | a list of already normalised stories is returned unchanged |
| StoryStore.FilteredStories | src/stores/story-store.ts:27-39 | `all` is the cached list itself; `featured` keeps exactly the featured entries in cached order, each as often as it occurs; `recent` is a permutation sorted newest first |
| StoryStore.RecentIsPermutation | src/stores/story-store.ts:32-35 | the recent view has the same length and the same members as the cache |
| StoryStore.NewerOrSameIsPreorder | src/stores/story-store.ts:33-35 | the newest-first comparison is total and transitive, so sorting by it is well defined |
| StoryStore.StoriesQuery | src/stores/story-store.ts:44-46 | `featured=true` is sent iff featured is asked for; `search` is sent iff a non-empty search is given |
| StoryStore.FetchStoryById | src/stores/story-store.ts:66-79 | a story comes back iff the reply is ok and its tags parse; it is the reply's story with normalised tags |
| StoryStore.Store.constructor | src/stores/story-store.ts:19-23 | the store starts empty, not loading, without error, on the `all` filter |
| StoryStore.Store.SetFilter | src/stores/story-store.ts:25 | sets the filter and touches nothing else |
| StoryStore.Store.FetchStories | src/stores/story-store.ts:41-64 | sends the query; on an ok reply whose tags all parse, replaces the list and clears the error; otherwise keeps the list and sets the reply's error message; loading ends false |
| StoryStore.Store.CreateStory | src/stores/story-store.ts:81-108 | on success prepends the normalised story and returns it; on failure keeps the list, sets the error and returns none; loading ends false |
| StoryStore.Store.UpdateStory | src/stores/story-store.ts:110-137 | on success replaces every entry with that id by the normalised reply; on failure keeps the list and sets the error |
| StoryStore.Store.DeleteStory | src/stores/story-store.ts:139-159 | returns true iff the reply is ok, and then removes every entry with that id; otherwise keeps the list and sets the error |
| EventStore.EventsQuery | src/stores/event-store.ts:21-25 | `status` is sent iff a status is given, and `upcoming=true` iff upcoming is asked for |
| EventStore.EarlierOrSameIsPreorder | src/stores/event-store.ts:105 | the earliest-first comparison is total and transitive |
| EventStore.UpcomingSorted | src/stores/event-store.ts:104-105 | the upcoming events (date not past, status upcoming or ongoing), each as often as cached, sorted by date |
| EventStore.UpcomingEvents | src/stores/event-store.ts:100-107 | exactly the first five (or fewer) of the eligible events sorted by date: each upcoming and cached, sorted, no entry more often than among the eligible ones |
| EventStore.UpcomingPrefix | src/stores/event-store.ts:104-106 | any front part of the date-sorted eligible events is sorted, eligible, cached and within their multiset |
| EventStore.UpcomingEventsEarliest | src/stores/event-store.ts:104-106 | an upcoming event left out means five were shown and none of them is later than it |
| EventStore.UpcomingEventsAllWhenFew | src/stores/event-store.ts:104-106 | with five or fewer upcoming events, every one of them is shown |
| EventStore.Store.constructor | src/stores/event-store.ts:14-16 | the store starts empty and not loading |
| EventStore.Store.FetchEvents | src/stores/event-store.ts:18-37 | sends the query; replaces the events only on an ok reply; loading ends false whatever happens |
| EventStore.Store.CreateEvent | src/stores/event-store.ts:39-57 | on an ok reply appends the event and returns it; otherwise returns none and leaves the list |
| EventStore.Store.UpdateEvent | src/stores/event-store.ts:59-79 | on an ok reply replaces only the entries with that id; otherwise no change |
| EventStore.Store.DeleteEvent | src/stores/event-store.ts:81-98 | true iff the reply is ok, and then the entries with that id are removed; otherwise no change |
| MemberStore.Merge | src/stores/member-store.ts:76-78 | each field present in the reply overrides the cached one; each absent field is kept |
| MemberStore.MergeEmpty | src/stores/member-store.ts:76-78 | an empty reply changes nothing |
| MemberStore.MergeFull | src/stores/member-store.ts:76-78 | a reply carrying every field replaces the record |
| MemberStore.MergeIdempotent | src/stores/member-store.ts:76-78 | merging the same reply twice equals merging it once |
| MemberStore.MergeWhere | src/stores/member-store.ts:74-80 | only the records with the id are merged; others and the length are kept |
| MemberStore.FetchMemberById | src/stores/member-store.ts:32-40 | a member comes back iff the reply is ok, and it is the reply's member; the cache is not touched |
| MemberStore.Store.constructor | src/stores/member-store.ts:15-18 | the store starts empty, not loading, without error |
| MemberStore.Store.FetchMembers | src/stores/member-store.ts:20-30 | on ok replaces the members and clears the error; otherwise keeps them and sets "Erro ao buscar membros"; loading ends false |
| MemberStore.Store.CreateMember | src/stores/member-store.ts:42-62 | on ok appends the member and returns it; otherwise returns none and leaves the list |
| MemberStore.Store.UpdateMember | src/stores/member-store.ts:64-84 | true iff the reply is ok, and then the matching records are merged with the reply; otherwise no change |
| MemberStore.Store.DeleteMember | src/stores/member-store.ts:86-101 | true iff the reply is ok, and then the matching records are removed; otherwise no change |
| CounterStore.KindName | src/stores/counter-store.ts:38 | each counter the client can bump is a type the route accepts |
| CounterStore.BodiesMoveByOne | src/stores/counter-store.ts:43-52 | the increment body raises the named counter by one at the route and the decrement body lowers it by one |
| CounterStore.Store.constructor | src/stores/counter-store.ts:13-17 | all three counters start at 0, not loading |
| CounterStore.Store.FetchCounters | src/stores/counter-store.ts:19-36 | on ok sets all three counters from the reply; otherwise they keep their values; loading ends false |
| CounterStore.Store.IncrementCounter | src/stores/counter-store.ts:38-56 | sends action `increment`; on ok overwrites all three counters with the server's; otherwise no change |
| CounterStore.Store.DecrementCounter | src/stores/counter-store.ts:58-76 | sends action `decrement`; on ok overwrites all three counters with the server's; otherwise no change |
| CountersRoute.EnsureMain | src/app/api/counters/route.ts:8-18 | afterwards `main` exists; existing rows are untouched; the only row added is a fresh `main` |
| CountersRoute.EnsureMainIdempotent | src/app/api/counters/route.ts:8-18 | a second find-or-create changes nothing |
| CountersRoute.Increment | src/app/api/counters/route.ts:32-58 | the change is −1 iff the action is `decrement`, +1 otherwise, a missing action included |
| CountersRoute.Bump | src/app/api/counters/route.ts:53-62 | the named field moves by the change, the other two fields and the id stay |
| CountersRoute.BumpUndo | src/app/api/counters/route.ts:53-62 | an increment followed by a decrement of the same field restores the row |
| CountersRoute.DecrementBelowZero | src/app/api/counters/route.ts:53-62 | decrementing a zero counter gives −1: there is no lower bound |
| CountersRoute.Upserted | src/app/api/counters/route.ts:80-93 | on an existing row only the fields given in the body change; a missing row becomes `main` |
| CountersRoute.UpsertCreateIsUpdateOfFresh | src/app/api/counters/route.ts:87-92 | creating `main` from a body is the same as updating a zero row with it |
| CountersRoute.UpsertEmptyKeeps | src/app/api/counters/route.ts:82-86 | a body without fields leaves an existing row as it is |
| CountersRoute.HandleGet | src/app/api/counters/route.ts:5-26 | answers 200 with the `main` row, creating it first if absent; a fault answers 500 and changes nothing |
| CountersRoute.HandlePatch | src/app/api/counters/route.ts:29-72 | unreadable body: 500; an unknown type: 400 with the store untouched; otherwise `main` is ensured and the field moved by ±1, or 500 on a fault with nothing changed |
| CountersRoute.HandlePut | src/app/api/counters/route.ts:75-103 | stores the upserted `main` row and answers it with 200; a fault or unreadable body answers 500 with nothing changed |
| EventsRoute.StatusAlone | src/app/api/events/route.ts:13-15 | without `upcoming=true`, a non-empty status keeps exactly the events with that status |
| EventsRoute.UpcomingOverridesStatus | src/app/api/events/route.ts:18-21 | with `upcoming=true` an added status condition changes nothing |
| EventsRoute.ClientQuery | src/app/api/events/route.ts:11-23 | for the store's query: upcoming keeps events not in the past that are upcoming or ongoing; else a status keeps that status; else everything |
| EventsRoute.EarlierOrSameIsPreorder | src/app/api/events/route.ts:37-39 | the date-ascending order is total and transitive |
| EventsRoute.AttachedTo | src/app/api/events/route.ts:25-33 | the stories linked to the event, in table order, each as often as in the table |
| EventsRoute.StoriesOf | src/app/api/events/route.ts:25-33 | an event's included stories are one summary per linked story, in table order, and so the summaries of exactly the stories linked to it |
| EventsRoute.Listing | src/app/api/events/route.ts:25-35 | an event's story count equals the length of its included list |
| EventsRoute.SelectedRows | src/app/api/events/route.ts:11-39 | the matching events, each as often as stored, sorted by date ascending |
| EventsRoute.ListEvents | src/app/api/events/route.ts:23-40 | the listing is the selected rows in that order, each with its stories and story count |
| EventsRoute.NoParametersListsAll | src/app/api/events/route.ts:11-23 | with no parameters every stored event is listed |
| EventsRoute.HandleGet | src/app/api/events/route.ts:5-49 | answers 200 with the listing, or 500 on a fault |
| EventsRoute.StatusOrDefault | src/app/api/events/route.ts:66 | the stored status is `upcoming` iff none, an empty one or `upcoming` was given; a given status is kept |
| EventsRoute.NewEventRow | src/app/api/events/route.ts:56-70 | a row exists iff title, createdBy and a parseable date are given; it copies exactly the seven persisted fields and stamps id and times |
| EventsRoute.CreateIgnoresExtras | src/app/api/events/route.ts:58-68 | participant ids and media in the body do not affect the created row |
| EventsRoute.HandlePost | src/app/api/events/route.ts:53-77 | inserts the row and answers 201 with it; any failure answers 500 and adds nothing |
| StoriesRoute.FeaturedOnlyWhenTrue | src/app/api/stories/route.ts:13-15 | a `featured` value other than `true` applies no featured filter |
| StoriesRoute.ClientQuery | src/app/api/stories/route.ts:11-23 | for the store's query a story matches iff it is featured when asked and a non-empty search occurs in its title, content or author |
| StoriesRoute.BothConditions | src/app/api/stories/route.ts:11-23 | with both parameters a story is listed iff it is featured and mentions the search |
| StoriesRoute.NewerOrSameIsPreorder | src/app/api/stories/route.ts:31-33 | the newest-first order is total and transitive |
| StoriesRoute.MediaOf | src/app/api/stories/route.ts:26-30 | a story's included media are exactly the media rows pointing to it, in table order, each as often as in the table |
| StoriesRoute.SelectedRows | src/app/api/stories/route.ts:11-33 | the matching stories, each as often as stored, newest first |
| StoriesRoute.ListStories | src/app/api/stories/route.ts:25-35 | the listing is the selected rows in that order, each with its media |
| StoriesRoute.HandleGet | src/app/api/stories/route.ts:5-42 | answers 200 with the listing, or 500 on a fault |
| StoriesRoute.StoredTags | src/app/api/stories/route.ts:58 | tags are stored as text iff tags are given |
| StoriesRoute.StoredTagsReadBack | src/app/api/stories/route.ts:58 | the stored tag text is read back by the client as the same list |
| StoriesRoute.NewMediaRows | src/app/api/stories/route.ts:60-66 | no media, or an empty list, makes no rows; otherwise one row per item, in order, copying type, url and caption |
| StoriesRoute.ClientMediaIdsIgnored | src/app/api/stories/route.ts:60-66 | the ids the client sends with its media items do not reach the stored rows |
| StoriesRoute.NewStoryRow | src/app/api/stories/route.ts:50-68 | a row exists iff title, content and author are given; it copies the fields, stores tags as JSON, and defaults featured to false |
| StoriesRoute.HandlePost | src/app/api/stories/route.ts:46-80 | inserts the story and its media rows together and answers 201 with both; any failure answers 500 and adds nothing |
| MembersRoute.NicknameLeIsPreorder | src/app/api/members/route.ts:18 | the nickname order is total and transitive |
| MembersRoute.Counts | src/app/api/members/route.ts:8-17 | each count is the number of rows linking the member that way (authored, participated, created, participated); bounded by its table and zero iff no row links |
| MembersRoute.CountsOfEmpty | src/app/api/members/route.ts:8-17 | with no stories and no events every count is zero |
| MembersRoute.CountsAddStory | src/app/api/members/route.ts:8-17 | one more story raises the authored and participated story counts by one each when it links the member that way, and leaves the event counts unchanged |
| MembersRoute.CountsAddEvent | src/app/api/members/route.ts:8-17 | one more event raises the created and participated event counts by one each when it links the member that way, and leaves the story counts unchanged |
| MembersRoute.ListMembers | src/app/api/members/route.ts:7-19 | every member listed once with the right counts, sorted by nickname ascending |
| MembersRoute.HandleGet | src/app/api/members/route.ts:5-28 | answers 200 with the listing, or 500 on a fault |
| MembersRoute.NewMemberRow | src/app/api/members/route.ts:36-46 | a row exists iff name and nickname are given; it copies exactly name, nickname, avatar, bio and role |
| MembersRoute.InsertKeepsUnique | src/app/api/members/route.ts:36-56 | a row that clashes with no member keeps nicknames unique |
| MembersRoute.HandlePost | src/app/api/members/route.ts:32-62 | a nickname or id clash answers 400 with the duplicate message and adds nothing; other failures answer 500; otherwise 201 and the row is appended; nicknames stay unique |
| UploadRoute.ResourceFor | src/app/api/upload/route.ts:29-33 | the uploader is told `video` iff the content type starts with `video/` |
| UploadRoute.KindFor | src/app/api/upload/route.ts:39 | a file is reported as video iff its content type starts with `video/`, otherwise as image |
| UploadRoute.KindMatchesResource | src/app/api/upload/route.ts:29-39 | the reported kind agrees with the hint given to the uploader |
| UploadRoute.AudioIsReportedAsImage | src/app/api/upload/route.ts:29-39 | an audio file is uploaded and reported as an image |
| UploadRoute.UploadAll | src/app/api/upload/route.ts:24-45 | succeeds iff every file uploads; then one entry per file, in order, with the asset's id and url |
| UploadRoute.HandlePost | src/app/api/upload/route.ts:4-55 | no files: 400, before the credentials are looked at; missing credentials: 500; 200 iff every upload succeeds, with all entries; otherwise an error body |
| UploadRoute.UnconfiguredNeverUploads | src/app/api/upload/route.ts:17-22 | without credentials the answer does not depend on the uploader at all |
| UploadRoute.OneFailureFailsAll | src/app/api/upload/route.ts:48-53 | one failed upload makes the request fail with no partial result |
| Confirmation.AcceptsIff | src/components/ui/ConfirmationModal.tsx:15-30 | input is accepted iff it is the secret phrase surrounded only by spaces, in any letter case |
| Confirmation.StepKeepsValid | src/hooks/useMamacoConfirmation.tsx:12-43 | every handler keeps the gate's invariant (a pending action only while the modal is open) |
| Confirmation.RunKeepsValid | src/hooks/useMamacoConfirmation.tsx:12-43 | so does every sequence of events |
| Confirmation.ConfirmStoresAction | src/hooks/useMamacoConfirmation.tsx:16-19 | `confirm` stores the action, replacing any earlier one, and opens the modal without running anything |
| Confirmation.RunsOnlyWhenAccepted | src/components/ui/ConfirmationModal.tsx:29-53 | an action runs only on confirm or Enter, with the modal open, the phrase accepted and an action pending, and then the pending action is cleared |
| Confirmation.ModalConfirmedRuns | src/components/ui/ConfirmationModal.tsx:29-39 | the modal's confirm runs the pending action iff the input is accepted and an action is pending, and then closes with nothing pending |
| Confirmation.AcceptedRunsPending | src/hooks/useMamacoConfirmation.tsx:21-34 | an accepted confirm runs the pending action once, closes the modal, clears input and error; the monkey shows only if the action did not throw |
| Confirmation.RejectedKeepsWaiting | src/components/ui/ConfirmationModal.tsx:34-37 | a rejected confirm only sets error and shake; the input and the pending action are kept |
| Confirmation.CancelDiscards | src/components/ui/ConfirmationModal.tsx:41-65 | cancel and a backdrop click clear the input and error, close the modal and drop the pending action |
| Confirmation.KeysAsClicks | src/components/ui/ConfirmationModal.tsx:47-53 | Enter is a confirm click, Escape is cancel, any other key does nothing |
| Confirmation.EditClearsError | src/components/ui/ConfirmationModal.tsx:113-116 | editing the input sets it and clears the error |
| Confirmation.MonkeyCompleteOnlyHides | src/hooks/useMamacoConfirmation.tsx:41-43 | the monkey callback hides the monkey and changes nothing else |
| Confirmation.StepPotential | src/hooks/useMamacoConfirmation.tsx:16-34 | one event runs at most what `confirm` has stored, and never undoes an earlier run |
| Confirmation.RunsBoundedByConfirms | src/hooks/useMamacoConfirmation.tsx:16-34 | over any sequence of events the actions run never outnumber the `confirm` calls |
| Confirmation.RunsFromInitial | src/hooks/useMamacoConfirmation.tsx:16-34 | from the initial state, each confirmed action runs at most once |
| Confirmation.Gate.constructor | src/hooks/useMamacoConfirmation.tsx:12-14 | the gate starts closed, with no pending action, no monkey, empty input and no error |
| Confirmation.Gate.IsConfirming | src/hooks/useMamacoConfirmation.tsx:62 | `isConfirming` is exactly whether the modal is open |
| Confirmation.Gate.Confirm | src/hooks/useMamacoConfirmation.tsx:16-19 | the new state is the step for `confirm(action)` |
| Confirmation.Gate.HandleConfirm | src/hooks/useMamacoConfirmation.tsx:21-34 | closes the modal, runs the pending action if any, and clears it |
| Confirmation.Gate.HandleCancel | src/hooks/useMamacoConfirmation.tsx:36-39 | closes the modal and drops the pending action |
| Confirmation.Gate.HandleMonkeyComplete | src/hooks/useMamacoConfirmation.tsx:41-43 | the new state is the step for the monkey callback |
| Confirmation.Gate.ModalConfirm | src/components/ui/ConfirmationModal.tsx:29-39 | the new state is the step for a confirm click |
| Confirmation.Gate.ModalCancel | src/components/ui/ConfirmationModal.tsx:41-65 | the new state is the step for cancel, the same as for a backdrop click |
| Confirmation.Gate.KeyDown | src/components/ui/ConfirmationModal.tsx:47-53 | the new state is the step for that key |
| Confirmation.Gate.Edit | src/components/ui/ConfirmationModal.tsx:113-116 | the new state is the step for an edit of the input |
| Confirmation.Gate.ShakeTimeout | src/components/ui/ConfirmationModal.tsx:37 | the new state is the step for the shake timer firing |
| MemberSelector.FilteredMembers | src/components/ui/MemberSelector.tsx:48-52 | keeps exactly the members whose name or nickname contains the search, ignoring letter case, in their order and with their multiplicity |
| MemberSelector.EmptySearchListsAll | src/components/ui/MemberSelector.tsx:48-52 | an empty search keeps every member |
| MemberSelector.SelectedMembers | src/components/ui/MemberSelector.tsx:54 | exactly the members whose id is selected, in the members' order and with their multiplicity |
| MemberSelector.Without | src/components/ui/MemberSelector.tsx:57-58 | drops every occurrence of the id and keeps every other id as often as before |
| MemberSelector.Toggle | src/components/ui/MemberSelector.tsx:56-63 | a selected id is removed; an unselected one is refused once the limit is reached, otherwise appended at the end; a reported change holds the id iff it was not held |
| MemberSelector.ToggleKeepsLimit | src/components/ui/MemberSelector.tsx:56-63 | a selection within the limit stays within it |
| MemberSelector.NoLimitAlwaysReports | src/components/ui/MemberSelector.tsx:60 | a missing or zero limit never refuses a toggle |
| MemberSelector.ToggleTwice | src/components/ui/MemberSelector.tsx:56-63 | adding an id and toggling it again restores the selection |
| MemberSelector.Remove | src/components/ui/MemberSelector.tsx:65-67 | the id is gone and every other id is kept |
| MemberSelector.RemoveAbsent | src/components/ui/MemberSelector.tsx:65-67 | removing an unselected id changes nothing |
| MediaUpload.EntryFor | src/components/ui/MediaUpload.tsx:45 | an entry keeps the reported url and type, and its id, or a generated id when the reported one is empty |
| MediaUpload.Entries | src/components/ui/MediaUpload.tsx:44-48 | one entry per reported file, in order |
| MediaUpload.EntriesHaveIds | src/components/ui/MediaUpload.tsx:45 | with a generator that never gives an empty id, every entry has an id |
| MediaUpload.MediaInputs | src/components/stories/StoryForm.tsx:98-102 | the media are forwarded as id, type and url, in the same order |
| MediaUpload.FilesToSendAsWritten | src/components/ui/MediaUpload.tsx:63-64 | the slice as written: a negative remaining count counts from the end of the picked list |
| MediaUpload.AsWrittenExceedsLimit | src/components/ui/MediaUpload.tsx:63-64 | with 12 files held, a limit of 10 and 3 picked, the slice as written still sends one file |
| MediaUpload.FilesToSend | src/components/ui/MediaUpload.tsx:63-64 | a prefix of the picked files: empty once the list is full, otherwise as many as there are free slots and picked files |
| MediaUpload.FilesToSendFits | src/components/ui/MediaUpload.tsx:63-64 | sending never takes the list over the limit |
| MediaUpload.FilesToSendAgrees | src/components/ui/MediaUpload.tsx:63-64 | whenever the list is within the limit, the corrected slice is the one written |
| MediaUpload.Uploader.constructor | src/components/ui/MediaUpload.tsx:21-28 | starts from the existing files (or none), with the limit given or 10, not uploading |
| MediaUpload.Uploader.HandleFiles | src/components/ui/MediaUpload.tsx:30-70 | no list sends nothing; otherwise sends the free-slot prefix; on an ok reply appends the entries after the old files and reports that list; otherwise files unchanged; uploading ends false; the limit is kept |
| MediaUpload.Uploader.RemoveFile | src/components/ui/MediaUpload.tsx:81-85 | removes the entries with the id, reports the new list, keeps the limit |
| Participants.View | src/components/ui/ParticipantsList.tsx:51-61 | nothing is drawn iff the list is missing or empty; otherwise the first `maxVisible` (default 10) are shown and the remaining count is n − maxVisible |
| Participants.ShownPlusBadgeIsAll | src/components/ui/ParticipantsList.tsx:60-136 | the shown prefix plus the non-negative remainder is the whole list, and the badge shows iff some are hidden |
| Participants.ShortListShownWhole | src/components/ui/ParticipantsList.tsx:51-61 | ten or fewer participants are all shown, without a badge |
| Participants.Color | src/components/ui/ParticipantsList.tsx:38-65 | participant i gets colour i mod 6 of the neon palette |
| Participants.ColorsCycle | src/components/ui/ParticipantsList.tsx:38-65 | the colours repeat every six participants, and six neighbours all differ |
| Participants.EarlierAbove | src/components/ui/ParticipantsList.tsx:79 | an earlier participant is drawn above a later one |
| Validation.AtLeast | src/components/stories/StoryForm.tsx:17 | a minimum-length rule reports an issue on its field iff the value is too short |
| Validation.AtMost | src/components/stories/StoryForm.tsx:18 | a maximum-length rule reports an issue on its field iff the value is too long |
| Validation.OptionalAtMost | src/components/stories/StoryForm.tsx:23-26 | an optional field is an issue iff given and too long |
| StoryForm.Issues | src/components/stories/StoryForm.tsx:14-33 | the form is valid iff title 3–100, content 50–10000, excerpt at most 300 and author 2–50; issues name only those fields |
| StoryForm.CleanTag | src/components/stories/StoryForm.tsx:85 | a cleaned tag is trimmed and lower-case, gains no comma, and a clean tag is left as it is |
| StoryForm.ParseTags | src/components/stories/StoryForm.tsx:83-85 | no tag text, or an empty one, gives no tags; otherwise one tag per comma-separated part, in order, each that part trimmed and lower-cased |
| StoryForm.CleanPaddedTag | src/components/stories/StoryForm.tsx:74-85 | cleaning a clean tag after the joining space gives the tag back |
| StoryForm.JoinedTagParts | src/components/stories/StoryForm.tsx:74-84 | splitting tags joined with ", " at the commas gives the tags, all but the first led by a space |
| StoryForm.DefaultTagsReparse | src/components/stories/StoryForm.tsx:74-85 | clean tags shown joined with ", " parse back to the same list |
| StoryForm.CoverImage | src/components/stories/StoryForm.tsx:87 | none iff no medium is an image; otherwise the url of the first image |
| StoryForm.RequestAccepted | src/components/stories/StoryForm.tsx:81-103 | the server creates a row from any form: it carries the form's fields, the first image as cover, featured only if ticked, and the parsed tags, which the client reads back |
| StoryForm.MediaReachesServer | src/components/stories/StoryForm.tsx:98-102 | the form's media become one stored row each, in order, with their type and url |
| StoryForm.Dispatch | src/components/stories/StoryForm.tsx:105-109 | an update of that id iff in edit mode with an id; a create otherwise; the body is passed unchanged |
| StoryForm.Submit | src/components/stories/StoryForm.tsx:122-124 | an invalid form leaves the gate as it was; a valid one hands the dispatched call to the gate, which runs nothing yet |
| EventForm.StatusIssues | src/components/events/EventForm.tsx:38 | a status is an issue iff given and not one of the four values |
| EventForm.Issues | src/components/events/EventForm.tsx:20-39 | the form is valid iff title 3–100, description at most 500, location at most 200, a date given, createdBy 2–50 and a known status when present |
| EventForm.DefaultStatus | src/components/events/EventForm.tsx:81 | the status field starts as the event's status, or `upcoming` for a new one |
| EventForm.RequestStatus | src/components/events/EventForm.tsx:95 | the request carries the chosen status, or `upcoming` when none is chosen |
| EventForm.RequestAccepted | src/components/events/EventForm.tsx:88-101 | a valid form is created iff its date parses; the row carries the form's fields and a known status |
| EventForm.Dispatch | src/components/events/EventForm.tsx:104-108 | an update of that id iff in edit mode with an id; a create otherwise |
| EventForm.Submit | src/components/events/EventForm.tsx:121-123 | an invalid form leaves the gate as it was; a valid one hands the dispatched call to the gate |
| MemberForm.Issues | src/components/members/MemberForm.tsx:14-31 | the form is valid iff name 2–100, nickname 2–50, bio at most 500 and role at most 100 |
| MemberForm.AvatarField | src/components/members/MemberForm.tsx:99 | an empty avatar url is sent as no avatar, any other url as itself |
| MemberForm.RequestAccepted | src/components/members/MemberForm.tsx:93-99 | the server creates a row carrying the form's fields, without an avatar iff the url is empty |
| MemberForm.AvatarAfter | src/components/members/MemberForm.tsx:79-82 | the avatar url becomes the first returned file's url on an ok reply with files, and is kept otherwise |
| MemberForm.UploadedAvatarIsKept | src/components/members/MemberForm.tsx:79-82 | after a successful upload of one file the avatar is that file's secure url |
| MemberForm.Dispatch | src/components/members/MemberForm.tsx:102-106 | an update of that id iff in edit mode with an id; a create otherwise |
| MemberForm.AvatarPicker.constructor | src/components/members/MemberForm.tsx:44 | the avatar url starts as the member's avatar or empty |
| MemberForm.AvatarPicker.HandleAvatarUpload | src/components/members/MemberForm.tsx:65-88 | no chosen file does nothing; otherwise the first file is sent and the url follows the reply; uploading ends false |
| MemberForm.AvatarPicker.Submit | src/components/members/MemberForm.tsx:118-120 | an invalid form leaves the gate as it was; a valid one hands the dispatched call to the gate |
| Pages.ShownStories | src/app/historias/page.tsx:25-30 | a subsequence of the store's view keeping exactly the stories whose title, content or author contains the query, ignoring case, each as often as in the view |
| Pages.EmptySearchShowsView | src/app/historias/page.tsx:25-30 | an empty query shows the store's view unchanged |
| Pages.SearchIgnoresCase | src/app/historias/page.tsx:26-29 | a query and its lower-case form select the same stories |
| Pages.CountLabel | src/app/historias/page.tsx:146-147 | the label is singular iff exactly one story is shown |
| Pages.ShownEvents | src/app/eventos/page.tsx:19-21 | `all` shows the events unchanged; a status shows exactly the events with it, in order and with their multiplicity |
| Pages.PageOpensOnAll | src/app/eventos/page.tsx:13-17 | the page opens on `all`, showing every event, and fetches with no filter |
| Pages.TabsPartition | src/app/eventos/page.tsx:21 | each event shows under its own status tab and under no other |
| Pages.FeaturedOnHome | src/app/page.tsx:18 | at most three stories, all featured, the first of the featured in store order |
| Pages.FewFeaturedAllShown | src/app/page.tsx:18 | with three or fewer featured stories, all of them are shown |

## Left out

- The database schema is not part of this model. Counter columns are taken to default to 0, and an event's status is stored as a string.
- The by-id routes (read, update and delete of one story, event or member) are not part of this model. The stores' update and delete replies are inputs.
- Database plumbing, the Cloudinary SDK and the browser's `fetch` are not modelled. Each is replaced by a parameter: a `fault` flag, an uploader function, or a `Reply`.
- CountersRoute.HandlePatch: a fault is taken to happen at the first database access, so a fault after the row was created but before the update is not modelled.
- A request body that is not JSON is an absent body. Its route answers 500, as in the source.
- A counters PUT body holding `null` values is not modelled; fields are numbers or absent.
- SQL `contains` is a case-sensitive substring test. The database collation is not modelled, and nickname order is code-point order.
- The order of rows with equal sort keys is left to the stable sort. The database does not promise it.
- Dates are integers. `now` and date parsing are parameters, and `formatDateForInput` and locale display are left out.
- Text is sequences of characters. zod's UTF-16 length, and Unicode trimming and lower-casing, are not modelled; trimming and lower-casing cover ASCII.
- StoryStore.NormaliseStory: tag text that is valid JSON but not an array of strings (`null`, a number, an object, a single string such as `"x"`) fails here, and the fetch keeps the old list; `JSON.parse` accepts it and the source caches that value as the tags. A story's tags are a list of strings in this model. A `\u` escape naming a lone surrogate also fails here, because a character is a Unicode scalar value.
- The `SyntaxError` that `JSON.parse` throws on malformed tag text carries engine wording. A placeholder message stands for it.
- The Story type omits `authorMember`, `participants` and `event`; Member omits its optional counts. These are display-only joins.
- Concurrency is left out: every handler runs to completion before the next. So overlapping uploads, the drop zone staying live while uploading, and stale closures in `useCallback` are not modelled.
- Animations, the monkey's auto-hide timer, the forms' redirect timer, `router.push`, `onSuccess` callbacks and all rendering are left out. The modal's shake timer is an event.
- Voice input (`useVoiceInput`) and the id generator's randomness are left out. Generated ids are a parameter.
- The EventForm sends participant ids and media that the events POST ignores (`EventsRoute.CreateIgnoresExtras`). The stories POST also ignores participant ids and client media ids (`StoriesRoute.ClientMediaIdsIgnored`).
- A valid event form whose date does not parse fails at the server with 500 (`EventForm.RequestAccepted`).

## Findings

| source | as written | input that shows it | evidently intended | confidence | as-written member | corrected member |
|---|---|---|---|---|---|---|
| src/components/ui/MediaUpload.tsx:63-64 | `slice(0, maxFiles - files.length)` with a negative count slices from the end of the picked files | `maxFiles` 10, 12 existing files given by `existingFiles`, 3 files picked: one file is still sent, giving 13 | send nothing once the list is at or over the limit | not executed; reachable only when the existing files already exceed the limit | MediaUpload.FilesToSendAsWritten, MediaUpload.AsWrittenExceedsLimit | MediaUpload.FilesToSend, MediaUpload.FilesToSendFits (used by MediaUpload.Uploader.HandleFiles) |
