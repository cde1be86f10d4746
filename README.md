# Portfolio content store and front-end behaviour, in Dafny

This project models the core of a personal portfolio site. The site has two halves.

**Next.js half.** A MongoDB database holds three collections:
- the projects;
- the skill categories;
- one global site-content document.

Server actions read and write them (`src/app/actions/projects.ts`). An upload action turns a file into a `data:` URL (`src/app/actions/upload.ts`). A request filter blocks probing paths (`src/middleware.ts`). Two scripts maintain the database: `scripts/seed.js` fills it and `clean-db.js` removes stray `id` fields. Two server pages fall back to bundled static data when the store is empty: the home page and the admin dashboard page. The dashboard client edits everything (`DashboardClient.tsx`).

**Static half.** Plain scripts drive the static pages:
- a typewriter headline;
- card sliders;
- a theme switch;
- scroll reveal;
- contact cards.

The model is organised by module:

- `Documents`:
  - stored values and documents;
  - the JSON round trip and `sanitize`;
  - BSON sort order;
  - `Date.toISOString`.
- `ContentStore`:
  - ObjectId parsing;
  - `findOne`, `updateOne` with `$set`, `deleteOne` and the upsert of the global document;
  - the `createdAt` sort;
  - the `Store` class, whose methods are the server actions.
- `Seed`, `CleanDb`: the two maintenance scripts, acting on a `Store`.
- `Base64`, `Upload`: section 4 of RFC 4648 as `Buffer.toString('base64')` writes it, and the upload action.
- `Middleware`: the path filter.
- `Text`: `includes`, `indexOf`, `split`, `join`, `trim` and `startsWith` on strings.
- `Pages`: the bundled static data, the home page and the admin dashboard page.
- `Dashboard`:
  - the image resize arithmetic;
  - list updates by client id;
  - the paragraph split/join of the description;
  - the `DashboardState` class holding the client's React state and handlers.
- `Typewriter`, `Slider`, `Theme`, `ScrollReveal`, `Contact`: the static-page scripts `index.js`, `presentationF/pres.js`, `projet/projet.js`, `script.js` and `legacy/script.js`.

The server pages `Pages.Home` and `Pages.AdminDashboard` take the results of `getProjects()`, `getSkills()` and `getSiteContent()` as parameters. Those results are what `ContentStore.Store.GetProjects`, `GetSkills` and `GetSiteContent` return.

The following inputs are parameters:
- the ObjectIds the driver generates;
- the current time;
- the theme kept in `window.currentTheme`;
- element presence;
- bounding rectangles;
- the resized image text.

## Model

| member | source | states |
|---|---|---|
| Documents.Texts | src/app/admin/dashboard/DashboardClient.tsx:466 | an array of texts holds each text, in order, as a string value |
| Documents.Digits | src/app/actions/projects.ts:10 | the fixed-width decimal field of an ISO date has exactly `width` digits |
| Documents.IsoString | src/app/actions/projects.ts:10 | the text `JSON.stringify` writes for a date is 24 characters in the `YYYY-MM-DDTHH:mm:ss.sssZ` layout |
| Documents.RoundTripDoc | src/app/actions/projects.ts:10 | the JSON round trip keeps exactly the document's fields |
| Documents.RoundTripIsPlain | src/app/actions/projects.ts:10 | after the JSON round trip no date and no ObjectId remains anywhere inside a value |
| Documents.RoundTripKeepsPlain | src/app/actions/projects.ts:10 | a value without dates or ObjectIds survives the round trip unchanged |
| Documents.RoundTripDocIsPlain | src/app/actions/projects.ts:10 | a round-tripped document is plain |
| Documents.RoundTripDocKeepsPlain | src/app/actions/projects.ts:10 | a plain document survives the round trip unchanged |
| Documents.SanitizeFields | src/app/actions/projects.ts:8-16 | null stays null. Every field is kept, round-tripped. `id` is added, equal to the round-tripped `_id`, exactly when that is truthy; otherwise an existing `id` is kept. |
| Documents.SanitizeObjectId | src/app/actions/projects.ts:10-14 | a stored ObjectId comes out as its hexadecimal text under both `_id` and `id` |
| Documents.SanitizeIdempotent | src/app/actions/projects.ts:8-16 | sanitizing an already sanitized document changes nothing |
| Documents.KindRank | src/app/actions/projects.ts:22 | the BSON kinds are ranked 1 to 9 (null, numbers, strings, objects, arrays, ObjectIds, booleans, dates) |
| Documents.TextLeTotal | src/app/actions/projects.ts:22 | any two texts are comparable in lexicographic order |
| Documents.TextLeTrans | src/app/actions/projects.ts:22 | the lexicographic order of texts is transitive |
| Documents.BsonLeTotal | src/app/actions/projects.ts:22 | any two values are comparable in BSON order |
| Documents.BsonLeTrans | src/app/actions/projects.ts:22 | BSON order is transitive |
| ContentStore.ParseObjectId | src/app/actions/projects.ts:41 | `new ObjectId(id)` succeeds exactly on 24 hexadecimal characters and yields their lower-case form |
| ContentStore.ParseCanonical | src/app/actions/projects.ts:41 | parsing the lower-case text of an ObjectId gives it back unchanged |
| ContentStore.FindFrom | src/app/actions/projects.ts:81 | the first matching position at or after `from`, or none when nothing from there matches |
| ContentStore.FindFirst | src/app/actions/projects.ts:81 | the first document whose field equals the value, with none before it; none when no document matches |
| ContentStore.FindById | src/app/actions/projects.ts:40-43 | with unique `_id`s, a filter on `_id` finds a document exactly when one has that id, and finds that one |
| ContentStore.StripIds | src/app/actions/projects.ts:39 | the rest object has every field of the payload except `id` and `_id`, with the same values |
| ContentStore.SetFirst | src/app/actions/projects.ts:40-43 | `updateOne` with `$set` changes only the first match. Its fields become the old ones plus the set ones; set values win. No match leaves the collection as it was. |
| ContentStore.DeleteFirst | src/app/actions/projects.ts:51 | `deleteOne` removes exactly the first match and keeps the others in order; no match changes nothing |
| ContentStore.SetFirstKeepsIds | src/app/actions/projects.ts:40-43 | a `$set` without `_id` keeps every document's `_id`, so ids stay unique |
| ContentStore.DeleteFirstKeepsIds | src/app/actions/projects.ts:51 | deleting keeps the ids unique |
| ContentStore.UpdateById | src/app/actions/projects.ts:37-47 | the update fails with an invalid-ObjectId error exactly when `id` is not 24 hexadecimal characters |
| ContentStore.DeleteById | src/app/actions/projects.ts:49-55 | the delete fails with an invalid-ObjectId error exactly when `id` is not 24 hexadecimal characters |
| ContentStore.UpdateByIdFrame | src/app/actions/projects.ts:37-47 | for a valid id, only the document with that id changes. It gains the form's fields other than `id`/`_id` and keeps the rest. Every `_id` stays; an unknown id changes nothing. |
| ContentStore.DeleteByIdFrame | src/app/actions/projects.ts:49-55 | for a valid id, the document with that id is gone and every other document remains; an unknown id changes nothing |
| ContentStore.FindGlobal | src/app/actions/projects.ts:79-83 | `findOne({type:'global'})` finds a document exactly when one is marked global, and that one is global |
| ContentStore.StripStoreId | src/app/actions/projects.ts:87 | the rest object has every field of the content except `_id` |
| ContentStore.UpsertGlobalSpec | src/app/actions/projects.ts:85-96 | the upsert adds a document only when there is no global one. An existing global document is merged as `$set` does: its fields become its old ones plus the written ones, written values win, and the rest keep their values. A new document is `{ _id: newId, type: 'global', ...data }`, with exactly those fields. Afterwards the global document holds every written field. No other document changes. |
| ContentStore.UpsertTwiceOneSingleton | src/app/actions/projects.ts:85-96 | a second save of the site content adds no second global document |
| ContentStore.InsertByCreatedAt | src/app/actions/projects.ts:22 | inserting into the sorted listing adds exactly that document |
| ContentStore.InsertKeepsNewestFirst | src/app/actions/projects.ts:22 | insertion keeps the listing in descending `createdAt` order |
| ContentStore.SortByCreatedAtDesc | src/app/actions/projects.ts:22 | `sort({ createdAt: -1 })` yields a permutation of the projects in descending BSON order of `createdAt` |
| ContentStore.DatesBeforeTexts | src/app/actions/projects.ts:22 | in the sorted listing every project with a date `createdAt` comes before every project whose `createdAt` is text |
| ContentStore.SanitizeAll | src/app/actions/projects.ts:23 | the mapped listing is each document sanitized, in order |
| ContentStore.NewProject | src/app/actions/projects.ts:26-35 | the inserted project has the form's fields plus `createdAt` set to now and `_id` set to the generated id |
| ContentStore.CreateThenUpdate | src/app/actions/projects.ts:26-47 | updating a just-created project by its returned id applies the edit to exactly that document |
| ContentStore.SaveListedProjectStoresText | src/app/actions/projects.ts:8-47 | saving back a listed (sanitized) project replaces its stored date with the date's ISO text |
| ContentStore.Store.constructor | src/lib/mongodb.ts:41-44 | a store over the three collections, with unique ids |
| ContentStore.Store.GetProjects | src/app/actions/projects.ts:20-24 | the projects are sanitized in descending `createdAt` order, as a permutation of the collection |
| ContentStore.Store.GetSkills | src/app/actions/projects.ts:59-63 | every skill category is sanitized, in natural order |
| ContentStore.Store.GetSiteContent | src/app/actions/projects.ts:79-83 | null when no document is global; otherwise the first global document, sanitized |
| ContentStore.Store.CreateProject | src/app/actions/projects.ts:26-35 | appends the new project, returns its id and touches no other collection |
| ContentStore.Store.UpdateProject | src/app/actions/projects.ts:37-47 | a malformed id is an error and changes nothing; otherwise the projects become `UpdateById`'s result |
| ContentStore.UpdateByFreshId | src/app/actions/projects.ts:40-43 | `new ObjectId(undefined)` is a fresh id: the update matches nothing, succeeds and leaves the collection as it was |
| ContentStore.DeleteByFreshId | src/app/actions/projects.ts:51 | a delete through a fresh id matches nothing, succeeds and leaves the collection as it was |
| ContentStore.Store.DeleteProject | src/app/actions/projects.ts:49-55 | a malformed id is an error and changes nothing; otherwise the projects become `DeleteById`'s result |
| ContentStore.Store.UpdateSkillCategory | src/app/actions/projects.ts:65-75 | as `UpdateProject`, on the skills |
| ContentStore.Store.UpdateSiteContent | src/app/actions/projects.ts:85-96 | the content becomes the upsert of the payload without `_id` and always succeeds |
| Seed.WithIds | scripts/seed.js:63-84 | `insertMany` gives each document the next generated `_id` and changes nothing else |
| Seed.SeedIfEmpty | scripts/seed.js:63-76 | an empty collection receives the starter documents; a non-empty one is left alone |
| Seed.SeedContent | scripts/seed.js:79-84 | the starter content is inserted only when no global document exists |
| Seed.StarterListingOrder | scripts/seed.js:5-17 | the two starter projects take a `new Date()` each; the newest-first listing puts the second first exactly when its time is later |
| Seed.StartersHaveNoId | scripts/seed.js:4-47 | no inserted starter document has an `id` field |
| Seed.SeedContentSpec | scripts/seed.js:79-84 | after seeding a global document exists, it is the starter one when there was none, and seeding again changes nothing |
| Seed.SeedIfEmptyTwice | scripts/seed.js:63-76 | seeding twice equals seeding once, and a seeded collection is not empty |
| Seed.WithIdsUnique | scripts/seed.js:63-76 | distinct generated ids give unique ids |
| Seed.SeedIfEmptyKeepsIds | scripts/seed.js:63-76 | seeding a collection keeps its ids unique |
| Seed.SeedContentKeepsIds | scripts/seed.js:79-84 | inserting the content under a fresh id keeps the ids unique |
| Seed.SeedKeepsIds | scripts/seed.js:60-84 | seeding keeps the ids of all three collections unique |
| Seed.Run | scripts/seed.js:49-91 | without a connection string the store is untouched; otherwise each collection is seeded as above |
| CleanDb.UnsetId | clean-db.js:11-19 | `$unset: { id }` removes `id` from every document and keeps every other field |
| CleanDb.UnsetIdSpec | clean-db.js:11-19 | no document keeps `id`, ids stay unique, and cleaning twice is cleaning once |
| CleanDb.CleanUndoesPersistedId | clean-db.js:11 | a content save that wrote an `id` into the global document is undone by the cleaner, which leaves the rest of it as written |
| CleanDb.Run | clean-db.js:4-27 | with a missing or empty connection string the client constructor throws, the error is caught, and nothing changes; otherwise each of the three collections loses its `id` fields |
| Base64.Char | src/app/actions/upload.ts:13 | every 6-bit value maps to an alphabet character, never to `=` |
| Base64.Value | src/app/actions/upload.ts:13 | exactly the alphabet characters have a 6-bit value |
| Base64.ValueOfChar | src/app/actions/upload.ts:13 | value and character tables are inverse one way |
| Base64.CharOfValue | src/app/actions/upload.ts:13 | and the other |
| Base64.EncodeGroup | src/app/actions/upload.ts:13 | three bytes become four alphabet characters |
| Base64.EncodeOne | src/app/actions/upload.ts:13 | a final single byte becomes two characters and two pads |
| Base64.EncodeTwo | src/app/actions/upload.ts:13 | two final bytes become three characters and one pad |
| Base64.GroupRoundTrip | src/app/actions/upload.ts:13 | a full group decodes to its three bytes |
| Base64.OneByteRoundTrip | src/app/actions/upload.ts:13 | a padded one-byte group decodes to its byte |
| Base64.TwoBytesRoundTrip | src/app/actions/upload.ts:13 | a padded two-byte group decodes to its two bytes |
| Base64.EncodeLength | src/app/actions/upload.ts:13 | the encoding has four characters per started group of three bytes |
| Base64.EncodeAlphabet | src/app/actions/upload.ts:13 | every character is in the alphabet or padding, and padding is only in the last two places |
| Base64.DecodeEncode | src/app/actions/upload.ts:13 | decoding the encoding gives back the bytes |
| Base64.EncodeInjective | src/app/actions/upload.ts:13 | different byte strings have different encodings |
| Upload.UploadFile | src/app/actions/upload.ts:3-22 | a missing or empty entry is the "No file uploaded" error, a text entry fails, and a file yields a successful `data:` URL: its media type, then the base-64 text of its bytes |
| Upload.DataUrlRoundTrip | src/app/actions/upload.ts:13-21 | the URL's first comma ends its header, and what follows decodes to the file's bytes |
| Text.IndexOfFrom | src/middleware.ts:19 | the first occurrence at or after `from`, or none |
| Text.IndexOf | src/middleware.ts:19 | `indexOf`: the first occurrence, or none anywhere |
| Text.ContainsIff | src/middleware.ts:19 | `includes` holds exactly when there is an occurrence |
| Text.IndexOfIs | src/middleware.ts:19 | an occurrence with none before it is what `indexOf` returns |
| Text.ContainsInfix | src/middleware.ts:19 | a text containing a fragment still contains it inside a longer text |
| Text.Split | src/app/page.tsx:75 | `split` always returns at least one piece |
| Text.SplitPiecesFree | src/app/page.tsx:75 | no piece of a split contains the separator |
| Text.JoinSplit | src/app/admin/dashboard/DashboardClient.tsx:466 | joining the pieces of a split gives back the text |
| Text.SplitJoin | src/app/admin/dashboard/DashboardClient.tsx:466 | splitting a join gives back the pieces, for pieces that cannot be cut differently |
| Text.LeadingSpace | src/app/page.tsx:77 | the leading white space of a text |
| Text.TrailingSpace | src/app/page.tsx:77 | the trailing white space of a text |
| Text.Trim | src/app/page.tsx:77 | `trim` returns an infix of the text with no white space at either end |
| Text.TrimIdempotent | src/app/page.tsx:77 | trimming twice is trimming once |
| Text.TrimKeepsOut | src/app/page.tsx:75-77 | trimming a text without a fragment cannot produce it |
| Middleware.SomeIncludedIff | src/middleware.ts:19 | `some(path => pathname.includes(path))` holds exactly when some blocked fragment occurs in the path |
| Middleware.Filter | src/middleware.ts:6-28 | the response is an empty 403 exactly when a blocked fragment occurs anywhere in the path; otherwise the request passes with the two security headers |
| Middleware.BlockedAnywhere | src/middleware.ts:19-21 | a blocked path stays blocked with anything before or after it |
| Middleware.NotOnlyPrefixes | src/middleware.ts:19-21 | `/api/.envelope` is blocked because it contains `/.env` |
| Pages.StaticIdsAreNotObjectIds | src/data/projects.ts:36-58 | the bundled ids `1`-`4` are not ObjectIds, so saving or deleting a bundled entry is an error |
| Pages.Home | src/app/page.tsx:13-49 | each collection falls back to the static data when empty; the shown count is the project count and is never zero |
| Pages.RenderTags | src/app/page.tsx:75-77 | the tags are the comma pieces, each trimmed |
| Pages.RenderTagsSpec | src/app/page.tsx:75-77 | at least one tag; none contains a comma or has white space at its ends; the pieces rejoin to the tag text |
| Pages.AdminDashboard | src/app/admin/dashboard/page.tsx:16-70 | the client gets the store's data, or the static data for an empty collection; "Total Missions" is the project count and never zero |
| Dashboard.ResizeImage | src/app/admin/dashboard/DashboardClient.tsx:83-114 | the longer side over 1200 is scaled to 1200, keeping the aspect ratio; a smaller image keeps its size; the canvas is the floor of each side |
| Dashboard.ReplaceById | src/app/admin/dashboard/DashboardClient.tsx:186-206 | only entries whose `id` is the edited id change, to their old fields merged with the form |
| Dashboard.RemoveById | src/app/admin/dashboard/DashboardClient.tsx:243 | the kept entries are exactly those whose `id` differs |
| Dashboard.RemoveByIdCounts | src/app/admin/dashboard/DashboardClient.tsx:243 | every entry whose `id` differs is kept as often as it occurs; every other entry is dropped |
| Dashboard.RemoveByIdAppend | src/app/admin/dashboard/DashboardClient.tsx:243 | the filter keeps the order: filtering a concatenation filters each part |
| Dashboard.RemoveByIdIdempotent | src/app/admin/dashboard/DashboardClient.tsx:243 | removing twice is removing once |
| Dashboard.AbsentIdNoChange | src/app/admin/dashboard/DashboardClient.tsx:186-243 | an id no entry has leaves the list unchanged under both replace and remove |
| Dashboard.ParagraphsRoundTrip | src/app/admin/dashboard/DashboardClient.tsx:466 | paragraphs without a blank-line break, none but the last ending in a newline, survive join-then-split |
| Dashboard.TextRoundTrip | src/app/admin/dashboard/DashboardClient.tsx:466 | the typed description survives split-then-join |
| Dashboard.EmptyListComesBackAsOneParagraph | src/app/admin/dashboard/DashboardClient.tsx:466 | an empty description list is displayed and saved back as one empty paragraph |
| Dashboard.TrailingBreakMoves | src/app/admin/dashboard/DashboardClient.tsx:466 | a paragraph ending in a newline loses it to the next one after display and edit |
| Dashboard.SetSubField | src/app/admin/dashboard/DashboardClient.tsx:446-461 | `{...content, outer: {...content[outer], inner: v}}` sets one inner field and keeps every other field at both levels |
| Dashboard.UploadedUrl | src/app/admin/dashboard/DashboardClient.tsx:139-149 | a CV is uploaded as a data URL of its bytes; an image uses the resized data |
| Dashboard.UploadTouchesOneField | src/app/admin/dashboard/DashboardClient.tsx:151-160 | an image or CV upload leaves every other top-level section of the content alone |
| Dashboard.DashboardState.constructor | src/app/admin/dashboard/DashboardClient.tsx:67-78 | the state starts from the page's props with nothing being edited |
| Dashboard.DashboardState.EditProject | src/app/admin/dashboard/DashboardClient.tsx:175-178 | the edited id becomes the project's id, or `undefined` for a project without one, and the form a copy of the project; nothing else changes |
| Dashboard.DashboardState.EditSkill | src/app/admin/dashboard/DashboardClient.tsx:379 | the edited id becomes the category's id, or `undefined`, and the form a copy of it |
| Dashboard.DashboardState.SaveProject | src/app/admin/dashboard/DashboardClient.tsx:180-198 | the store gets `updateProject`. On success the list merges the form into every entry with the edited id and editing ends; on an invalid id the list and the editing state stay. An `undefined` id leaves the store as it was, succeeds, and merges the form into every entry without an id. |
| Dashboard.DashboardState.SaveSkill | src/app/admin/dashboard/DashboardClient.tsx:200-218 | as `SaveProject`, for skill categories |
| Dashboard.DashboardState.DeleteProject | src/app/admin/dashboard/DashboardClient.tsx:238-250 | the store gets `deleteProject`, and the list drops the entries with that id only when that succeeded; an `undefined` id deletes nothing from the store and drops every entry without an id |
| Dashboard.DashboardState.SaveContent | src/app/admin/dashboard/DashboardClient.tsx:220-236 | the store's global document gets the edited content, and the client state stays |
| Dashboard.DashboardState.EditProjectField | src/app/admin/dashboard/DashboardClient.tsx:304-326 | typing into a project input sets that form field to the text |
| Dashboard.DashboardState.CancelProjectEdit | src/app/admin/dashboard/DashboardClient.tsx:328 | cancel ends project editing and keeps everything else |
| Dashboard.DashboardState.EditContentField | src/app/admin/dashboard/DashboardClient.tsx:446-492 | typing into a content input sets that one inner field |
| Dashboard.DashboardState.CreateProject | src/app/admin/dashboard/DashboardClient.tsx:252-262 | a `NEW_MISSION` project with the placeholder fields is appended to the store, and the page reloads |
| Dashboard.DashboardState.EditDescription | src/app/admin/dashboard/DashboardClient.tsx:466 | the typed text, split at blank lines, becomes the origin description and the other origin fields stay |
| Dashboard.DashboardState.HandleFileUpload | src/app/admin/dashboard/DashboardClient.tsx:131-174 | no file does nothing. The uploaded URL goes to the profile image, the CV link or the project form's image, by target. Saving ends. |
| Typewriter.WordListsOk | index.js:19 | the word lists of both pages are non-empty and hold no empty word |
| Typewriter.Current | index.js:29 | the word on show cycles through the list |
| Typewriter.Step | index.js:28-51 | one tick types a character after 80 ms, pauses 1200 ms on a complete word, deletes a character after 50 ms, and moves to the next word after 400 ms |
| Typewriter.Steps | index.js:28-51 | repeated ticks keep the state consistent |
| Typewriter.TypeUp | index.js:31-39 | ticks while typing add one character each |
| Typewriter.DeleteDown | index.js:40-49 | ticks while deleting remove one character each |
| Typewriter.WordCycle | index.js:28-51 | a word of n letters is fully typed after n ticks, and after 2n ticks the next word starts from nothing |
| Typewriter.Typewriter.constructor | index.js:24-26 | the typewriter starts at the first word, typing, with nothing shown |
| Typewriter.Typewriter.Tick | presentationF/pres.js:14-37 | the element's state and the next delay are those of `Step` |
| Typewriter.Start | presentationF/pres.js:1-39 | no element means no typewriter; otherwise the first tick shows the first letter |
| Slider.PrevIndex | index.js:148-151 | the previous slide wraps from the first to the last |
| Slider.NextIndex | index.js:153-156 | the next slide wraps from the last to the first |
| Slider.PrevNextInverse | projet/projet.js:28-36 | previous undoes next and next undoes previous |
| Slider.NextTimes | script.js:212-213 | repeated nexts stay in range |
| Slider.NextTimesForward | script.js:212-213 | nexts before the end advance one slide each |
| Slider.WrapToFirst | script.js:212-213 | from slide i, n-i nexts land on the first slide |
| Slider.PastTheEnd | script.js:212-213 | nexts past the end continue from the first slide |
| Slider.FullCycle | index.js:153-156 | n nexts on n slides come back to the start, and fewer never do |
| Slider.Slider.constructor | index.js:124-129 | a slider starts on the first slide |
| Slider.Slider.ClickPrev | legacy/script.js:202-206 | a click on prev shows the previous slide |
| Slider.Slider.ClickNext | legacy/script.js:208-212 | a click on next shows the next slide |
| Slider.Slider.KeyDown | index.js:159-165 | ArrowLeft and ArrowRight act as the buttons; other keys change nothing |
| Slider.GuardedCards | legacy/script.js:178 | the cards that get a slider are exactly those with a container and slides |
| Slider.GuardedCardsCounts | legacy/script.js:173-178 | every card with a container and slides gets a slider once per occurrence, and no other card gets one |
| Slider.GuardedCardsAppend | legacy/script.js:173-178 | the cards are set up in document order: guarding a concatenation guards each part |
| Slider.SetUpPrefix | script.js:189-220 | setup runs through the cards up to the first one missing a part |
| Slider.SetUpGuarded | legacy/script.js:172-224 | one fresh slider on the first slide per card with a container and slides |
| Slider.SetUpUnguarded | script.js:189-220 | setup throws exactly when some card misses a container, slides or a button, and the cards before it get sliders |
| Theme.InitialTheme | script.js:35-37 | the saved theme, or `dark` when none is saved |
| Theme.Toggled | script.js:40-41 | the toggle gives `light` exactly from `dark`, and `dark` from anything else |
| Theme.ToggleTwice | legacy/script.js:49-55 | two clicks come back exactly for `dark` and `light` |
| Theme.ThemeSwitch.ShowIcons | script.js:48-51 | each existing icon is active exactly when its theme is shown |
| Theme.ThemeSwitch.constructor | legacy/script.js:45-47 | the page starts on the initial theme with matching icons |
| Theme.ThemeSwitch.Click | script.js:39-46 | without a toggle nothing changes; otherwise the theme flips, is saved, and the icons follow |
| ScrollReveal.Revealed | script.js:93-110 | one pass keeps one flag per element |
| ScrollReveal.RevealedSpec | script.js:99-104 | a revealed element stays revealed, and another becomes revealed exactly when it is in view |
| ScrollReveal.RevealedIdempotent | legacy/script.js:78-83 | a second pass at the same positions changes nothing |
| ScrollReveal.RevealedAccumulates | legacy/script.js:78-83 | after two passes an element is revealed exactly when it was before or was in view in either pass |
| ScrollReveal.Reveal | legacy/script.js:74-86 | the loop over the elements leaves the flags of `Revealed` |
| ScrollReveal.Revealer.constructor | legacy/script.js:97 | the initial call reveals what is in view |
| ScrollReveal.Revealer.HandleScroll | legacy/script.js:88-93 | a scroll requests a frame only when none is pending |
| ScrollReveal.Revealer.Frame | legacy/script.js:72-86 | the frame reveals what is in view and clears the pending flag |
| ScrollReveal.Start | legacy/script.js:66-70 | no elements means no reveal at all |
| Contact.Open | script.js:231 | `mailto:` and `tel:` links open in the same window, every other link in a new tab |
| Contact.CardHandler | legacy/script.js:235-247 | a card is wired exactly when it has a button and a non-empty link |
| Contact.PageCardHandler | script.js:15-24 | on index.js and script.js no contact card is wired once a project card makes the slider setup throw; otherwise a card with a button and a non-empty link is wired. index.js opens every link in a new tab; script.js and legacy/script.js keep mail and phone links in the window. legacy/script.js's guarded setup never blocks the wiring. |
| Contact.WebLinksOpenNewTab | legacy/script.js:237-241 | a web link opens a new tab; mail and phone links stay in the window |

## Left out

- Database connections, `revalidatePath`, logging, notifications, timers and `window.location.reload` are left out: they are I/O. Connection failures in `scripts/seed.js` are left out too.
- `withAuth`, the sign-in redirect and the route `matcher` of `src/middleware.ts` are outside the model. Only the inner filter is modelled.
- ObjectIds are their 24-character hexadecimal text. Twelve-byte `Uint8Array` ids and numeric ids are not modelled.
- `$set` on dotted or `$`-prefixed keys is not modelled.
- Documents.BsonLe: two objects or two arrays compare equal. BSON compares them field by field; the model leaves that order unspecified. It also compares an array-valued `createdAt` as a scalar; in a descending sort MongoDB orders an array by its largest element.
- Numbers are integers; floating point is not modelled.
- Dates lie between 1970 and 9999. Strings are sequences of characters with no UTF-16 surrogate handling.
- ContentStore.Store.CreateProject: requires a form without `_id`. The dashboard never sends one, and an `_id` in the form would make the store reject or keep a caller-chosen id.
- Concurrent server actions and two dashboard tabs racing are not modelled.
- Pages.Home: src/app/page.tsx:7-8 imports `getExperiences` and `staticExperiences`, and line 16 awaits `getExperiences()`. Neither src/app/actions/projects.ts nor src/data/projects.ts defines them, so as written the page fails to build, or throws at line 16. The model assumes the call returns a list and takes both lists as parameters.
- ContentStore.ParseObjectId: follows the 24-hex-character rule of bson 5 and later. bson 4 also accepts any 12-character string as an ObjectId.
- An empty `$set` is treated as a no-op. MongoDB servers before 5.0 reject it.
- The ObjectId the driver generates for `new ObjectId(undefined)` is random. `SaveProject`, `SaveSkill` and `DeleteProject` take it as a parameter, well formed and held by no stored document.
- A save with nothing being edited (`editingProjectId` null) is a no-op in the model. The save buttons are only rendered inside an open edit form.
- Dashboard.ClientIdOf: an `id` that is present but not text (a number, say) is treated like a missing one. Documents from the store and the bundled data always carry text ids.
- The canvas drawing and the JPEG re-encoding of an image are not modelled. The resized image text is a parameter of `Dashboard.DashboardState.HandleFileUpload`.
- Upload.DataUrlRoundTrip: holds only for media types without a comma. A comma in the media type would move the header's end.
- Spreading a non-object `origin` or `contact` is treated as spreading nothing.
- Menus, the "about" button of `presentationF/pres.js`, smooth anchor scrolling, the loader and decorative animations are not modelled.
- The slider resize handlers are not modelled.
- Slider.SetUpUnguarded: a card that throws part-way may already have registered some of its handlers. The model gives it no slider. The throw also ends the page's `DOMContentLoaded` handler, so nothing that handler would call afterwards runs: no contact card is wired (`Contact.PageCardHandler`), and on script.js the smooth anchors are not set up either.
- ContentStore.Store.GetProjects: documents with equal `createdAt` are listed in their natural order, because the model's sort is stable. MongoDB does not promise any order among ties.
- ScrollReveal: element boxes are real numbers given as parameters. Layout is not computed.
