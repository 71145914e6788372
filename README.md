# Rony's Pizza Hub — content loading, the one-shot special dialog, and the seed data

This project models the parts of the restaurant site that carry rules:

- **The home page** (`frontend/src/pages/HomePage.jsx`):
  - `fetchAll` loads seven resources: `/menu`, `/chefs-choice`, `/reviews`, `/timeline`, `/video`, `/assets` and `/special`.
  - The "Today's Special" dialog is gated on the `special_seen` entry of `localStorage`. After a visit in which `onOpenChange(false)` has stored that flag, with no timer pending, the dialog does not open again. The Add and Close buttons call only `setOpenSpecial(false)`. Unless the dialog library also raises `onOpenChange(false)` for them, a visitor who leaves that way sees the dialog again on the next visit, and so does one whose storage cannot be written. When storage cannot be read, it never opens.
  - The menu grid filters by category.
  - The contact form is cleared only after a successful POST.
  - The WhatsApp links strip non-digits from the number.
  - The hero and about pictures fall back through a chain of images.
- **The backend seed** (`backend/seed.py`):
  - `seed_data_dict` is the fixed dataset.
  - `seed_if_empty` inserts that dataset, collection by collection, into the collections it finds empty.

Files:

- `Wrappers.dfy`: `Option`, which stands for `null`/`undefined`/`None`.
- `Content.dfy`: the entities (menu item, review, timeline entry, special, video, assets) and the five menu category keys.
- `Seed.dfy`: the seed dataset and the properties the backend's API tests check of it. Also the `Database` class, whose `SeedIfEmpty` issues the seven conditional inserts. It is proved equal to a collection-wise description, `AfterSeed`.
- `PageHelpers.dfy`: the page's pure expressions. These are the category filter, the digit strip and the `?.img ||` fallback chains.
- `ContactForm.dfy`: the `Contact` component's form state.
- `HomePage.dfy`: the page component as a class. Its methods are proved against pure transition functions (`AfterLoad`, `AfterFire`, `AfterOpenChange`), and the lemmas state what those functions promise. The file also has:
  - `LocalStorage`, the browser store that outlives a page, which may fail to read and fail to write independently;
  - `MenuGrid`, the active tab;
  - an event-trace lemma for the dialog gate.

How the loading works in the code:

- `Promise.all` joins the seven requests, and only `/special` has its own `.catch`. A failure of any of the other six rejects the whole batch, the `catch` only logs, and the page keeps its initial state: empty collections and null singletons.
- After the join, the setters run in source order. `res.data.items` on a null body throws. The setters before that point have already run and the ones after it have not, so the model keeps that partial state.
- The dialog is scheduled only when the whole success path ran, `localStorage.getItem` did not throw, the flag is falsy (absent or `""`), and special data arrived. Each scheduled `setTimeout` is a pending-timer count. Its firing is a separate step.

Three consequences of the code that the model keeps:

- Loading is all-or-nothing. A failure of any of the six requests without a `.catch` rejects `Promise.all`, so no content section is filled (`HomePage.jsx:385-393`, `406-408`).
- When storage cannot be read, `localStorage.getItem` throws inside the `try`. Control goes to the `catch`, and no dialog is scheduled (`HomePage.jsx:402`).
- Only `onOpenChange(false)` writes the flag. The Add and Close buttons call only `setOpenSpecial(false)` (`HomePage.jsx:456`, `472`, `475`).

## Model

| member | source | states |
|---|---|---|
| `Seed.SeedMenu` | backend/seed.py:16-27 | defines the ten menu items, taking their uuids as a parameter |
| `Seed.SeedChefsChoice` | backend/seed.py:29-33 | defines the three chef's-choice items |
| `Seed.SeedReviews` | backend/seed.py:35-42 | defines the six reviews |
| `Seed.SeedDataDict` | backend/seed.py:6-66 | defines seed_data_dict from 19 uuids. It takes the menu, chef's choice and reviews from the functions above and the timeline, special, video and assets from the constants `SeedTimeline`, `SeedSpecial`, `SeedVideo` and `SeedAssets` |
| `Seed.CollectionNamesDistinct` | backend/seed.py:72-85 | two collections are equal exactly when their database names are |
| `Seed.AfterSeed` | backend/seed.py:72-85 | defines the result collection by collection: an empty collection of the seed receives its seed documents, and every other collection keeps its own |
| `Seed.InsertIfEmptyOn` | backend/seed.py:72-73 | defines one conditional insert: the documents go into the collection only when it holds none |
| `Seed.Database.constructor` | backend/seed.py:69 | the database starts with the given collections |
| `Seed.Database.CountDocuments` | backend/seed.py:72 | defines count_documents({}) as the number of documents in the collection, 0 when it is absent |
| `Seed.SeedMenuFacts` | backend/seed.py:16-27 | the seed menu has 10 items (more than 5), every price is positive, every category is one of classic/specials/sides/drinks/desserts, and each of the five occurs |
| `Seed.SeedChefsChoiceFacts` | backend/seed.py:29-33 | the chef's choice has 3 items, all in category "specials" with positive prices |
| `Seed.SeedReviewFacts` | backend/seed.py:35-42 | 6 reviews, every rating in 1..5, and both a "customer" and a "blogger" review occur |
| `Seed.SeedTimelineFacts` | backend/seed.py:44-50 | the timeline years are exactly 2015, 2018, 2021, 2024, 2025 and strictly ascending |
| `Seed.SeedSingletonFacts` | backend/seed.py:52-56 | the special has a name, description, picture and positive price; the video URL is a YouTube URL; the menu PDF URL is set |
| `Seed.SeedDocs` | backend/seed.py:58-66 | the seed dictionary covers exactly the seven seeded collections |
| `Seed.SeedDataFillsAll` | backend/seed.py:58-66 | every collection of seed_data_dict has at least one document |
| `Seed.SeedOnlyFillsEmpty` | backend/seed.py:72-85 | a non-empty collection, or one outside the seed, is left exactly as it was; an empty seeded collection receives exactly its seed documents |
| `Seed.SeedFillsAll` | backend/seed.py:69-85 | after seeding, every seeded collection is non-empty |
| `Seed.SeedIdempotent` | backend/seed.py:69-85 | seeding a second time, with any documents or uuids, changes nothing |
| `Seed.SeedStepsMeetsAfterSeed` | backend/seed.py:72-85 | issuing the seven conditional inserts in order gives the collection-wise result AfterSeed |
| `Seed.Database.InsertIfEmpty` | backend/seed.py:72-73 | documents are appended only when count_documents is 0, and nothing else changes |
| `Seed.Database.SeedWith` | backend/seed.py:72-85 | the seven conditional inserts leave the database equal to AfterSeed of the old one |
| `Seed.Database.SeedIfEmpty` | backend/seed.py:69-85 | seeding with seed_data_dict gives AfterSeed of the old database, and all seven collections end non-empty |
| `PageHelpers.InCategory` | frontend/src/pages/HomePage.jsx:158 | defines `.filter((i) => i.category === active)` by recursion on the menu |
| `PageHelpers.GridItems` | frontend/src/pages/HomePage.jsx:158 | defines `(menu \|\| []).filter(...)`, with a null menu read as [] |
| `PageHelpers.StripNonDigits` | frontend/src/pages/HomePage.jsx:307 | defines `replace(/\D/g, "")` by recursion on the string |
| `PageHelpers.HeroImage` | frontend/src/pages/HomePage.jsx:429 | defines the hero picture as `timeline[2]?.img \|\| menu[0]?.img \|\| default` |
| `PageHelpers.ChefImage` | frontend/src/pages/HomePage.jsx:446 | defines the about picture as `timeline[0]?.img \|\| default` |
| `PageHelpers.InCategoryMembers` | frontend/src/pages/HomePage.jsx:158 | an item is shown exactly when it is on the menu and its category equals the active key |
| `PageHelpers.InCategoryAppend` | frontend/src/pages/HomePage.jsx:158 | the filter keeps menu order: filtering a concatenation is the concatenation of the filtered parts |
| `PageHelpers.InCategoryKeepsAll` | frontend/src/pages/HomePage.jsx:158 | a menu whose items are all in the active category is shown whole and unchanged |
| `PageHelpers.InCategoryIdempotent` | frontend/src/pages/HomePage.jsx:158 | filtering the shown items again shows the same items |
| `PageHelpers.NullMenuShowsNothing` | frontend/src/pages/HomePage.jsx:158 | a null menu shows an empty grid under every tab |
| `PageHelpers.EveryTabShows` | frontend/src/pages/HomePage.jsx:150-158 | for any key `k`: when some menu item has category `k`, the grid under tab `k` is non-empty |
| `PageHelpers.CategoryKeysDistinct` | frontend/src/pages/HomePage.jsx:150-156 | the five tab keys are pairwise distinct |
| `PageHelpers.TabsPartition` | frontend/src/pages/HomePage.jsx:150-158 | with distinct tab keys covering every item's category, the tabs together show each menu item exactly once (as multisets) |
| `PageHelpers.TabsPartitionMenu` | frontend/src/pages/HomePage.jsx:150-158 | the five menu tabs partition any menu whose categories are tab keys |
| `PageHelpers.StripKeepsDigits` | frontend/src/pages/HomePage.jsx:307 | every digit occurs in the stripped string as often as in the input, and no other character occurs |
| `PageHelpers.StripOnlyDigits` | frontend/src/pages/HomePage.jsx:307 | the stripped string consists of ASCII digits only |
| `PageHelpers.StripAppend` | frontend/src/pages/HomePage.jsx:307 | stripping keeps order: stripping a concatenation strips each part |
| `PageHelpers.StripFixesDigits` | frontend/src/pages/HomePage.jsx:307 | a string of digits is left unchanged |
| `PageHelpers.StripIdempotent` | frontend/src/pages/HomePage.jsx:485 | stripping twice equals stripping once |
| `PageHelpers.WhatsAppLinkDigits` | frontend/src/pages/HomePage.jsx:307 | stripping the brand number "+91 90000 12345" gives "919000012345" |
| `PageHelpers.WhatsAppLinkValue` | frontend/src/pages/HomePage.jsx:485 | the WhatsApp link is exactly "https://wa.me/919000012345" |
| `PageHelpers.FirstTruthy` | frontend/src/pages/HomePage.jsx:429 | `a \|\| b \|\| fallback` over strings: when some candidate is non-empty, the result is a non-empty candidate and every candidate before it is empty; when all are empty, the result is the fallback |
| `PageHelpers.HeroImageChoice` | frontend/src/pages/HomePage.jsx:429 | the hero picture is never empty: the third timeline picture if present, else the first menu picture, else the default |
| `PageHelpers.ChefImageChoice` | frontend/src/pages/HomePage.jsx:446 | the about picture is the first timeline picture if present, else the default, and never empty |
| `ContactForm.WithField` | frontend/src/pages/HomePage.jsx:321-323 | defines `{...form, field: value}` |
| `ContactForm.AfterSubmit` | frontend/src/pages/HomePage.jsx:290-299 | defines the form after a submit: cleared when the required fields are filled and the POST succeeds, otherwise kept |
| `ContactForm.EditOnlyTouchesField` | frontend/src/pages/HomePage.jsx:321-323 | an input's change handler sets its own field and leaves the other two as they were |
| `ContactForm.SubmitOutcome` | frontend/src/pages/HomePage.jsx:290-299 | a failed POST leaves the form unchanged; a successful one empties name, email and message |
| `ContactForm.Contact.constructor` | frontend/src/pages/HomePage.jsx:289 | the form starts with all three fields empty |
| `ContactForm.Contact.Edit` | frontend/src/pages/HomePage.jsx:321-323 | the form becomes `{...form, field: value}` |
| `ContactForm.Contact.Submit` | frontend/src/pages/HomePage.jsx:290-299 | the current form is POSTed when the required fields are filled, and the form is cleared only when that POST succeeds |
| `HomePage.CollectionsStored` | frontend/src/pages/HomePage.jsx:394-397 | all four collection setters run exactly when none of the four collection bodies is null |
| `HomePage.AfterLoad` | frontend/src/pages/HomePage.jsx:383-409 | defines fetchAll's effect on the page: nothing changes on a rejected batch; otherwise the setters run in order up to the first null body, and a run that passes them all reads the flag and may schedule the dialog |
| `HomePage.AfterFire` | frontend/src/pages/HomePage.jsx:404 | defines the timer callback: one pending timer fewer, and the dialog open |
| `HomePage.AfterOpenChange` | frontend/src/pages/HomePage.jsx:456 | defines onOpenChange(v): the open state becomes v, and a close stores the flag when storage is writable |
| `HomePage.LoadStoresCollections` | frontend/src/pages/HomePage.jsx:394-399 | each collection is stored as received and in order, with a missing `items` read as []; video and assets are stored as received |
| `HomePage.SpecialFailureIsolated` | frontend/src/pages/HomePage.jsx:392-400 | a failed /special alone does not abort the load: special is null, the other six are stored, and no dialog is scheduled |
| `HomePage.BatchRejectionKeepsInitial` | frontend/src/pages/HomePage.jsx:342-408 | if any of the six other requests fails, the collections stay [], video/assets/special stay null and nothing is scheduled |
| `HomePage.NullBodyStopsSetters` | frontend/src/pages/HomePage.jsx:394-400 | a null collection body stops the setters where it is met: each collection before it is stored as its `items` or [], it and the later ones keep their old value, the singletons are not set, and nothing is scheduled |
| `HomePage.LoadSchedulesIff` | frontend/src/pages/HomePage.jsx:402-405 | a load schedules the dialog exactly when every setter ran, storage can be read, the flag is unset and a special arrived; it schedules at most one timer |
| `HomePage.FlagBlocksSchedule` | frontend/src/pages/HomePage.jsx:402-405 | with `special_seen` stored, no load schedules the dialog, whatever content arrived |
| `HomePage.LoadLeavesGate` | frontend/src/pages/HomePage.jsx:383-409 | loading neither opens the dialog nor writes storage |
| `HomePage.OpenChangeWritesFlag` | frontend/src/pages/HomePage.jsx:456 | onOpenChange(v) sets the open state to v; an open never writes storage; a close over writable storage makes `special_seen` "1" |
| `HomePage.CloseIdempotent` | frontend/src/pages/HomePage.jsx:456 | closing twice leaves the same state as closing once |
| `HomePage.CloseWithoutStorage` | frontend/src/pages/HomePage.jsx:456 | when storage cannot be written, a close still closes the dialog and the store is unchanged |
| `HomePage.UnwritableStorageShowsAgain` | frontend/src/pages/HomePage.jsx:402-405 | with storage that can be read but not written, closing the dialog stores nothing, and the next visit's load schedules it again |
| `HomePage.AcknowledgedStaysClosed` | frontend/src/pages/HomePage.jsx:402-405 | once the flag is stored and no timer is pending, no sequence of loads, timer firings and closes opens the dialog or clears the flag |
| `HomePage.FirstVisitThenReturn` | frontend/src/pages/HomePage.jsx:402-405 | first visit: a load with a special schedules one timer, the firing opens the dialog, the close stores the flag, and the next page load schedules nothing |
| `HomePage.SeedMenuFillsTabs` | frontend/src/pages/HomePage.jsx:150-158 | over the seed menu every tab shows something, and the tabs together show each seed item exactly once |
| `HomePage.SeedTimelineImages` | frontend/src/pages/HomePage.jsx:429-446 | with the seed timeline, the hero shows the seed's third picture and the about section its first |
| `HomePage.LocalStorage.constructor` | frontend/src/pages/HomePage.jsx:402 | the browser store starts with the entries earlier visits left behind |
| `HomePage.MenuGrid.Items` | frontend/src/pages/HomePage.jsx:158 | defines the cards the grid renders: the menu filtered by the active tab |
| `HomePage.LocalStorage.GetItem` | frontend/src/pages/HomePage.jsx:402 | getItem returns the stored value or null, and throws when storage cannot be read |
| `HomePage.LocalStorage.SetItem` | frontend/src/pages/HomePage.jsx:456 | setItem writes the key when storage is writable and otherwise leaves it unchanged, reporting the failure |
| `HomePage.MenuGrid.constructor` | frontend/src/pages/HomePage.jsx:157 | the active tab starts at "classic" |
| `HomePage.MenuGrid.SelectTab` | frontend/src/pages/HomePage.jsx:165-166 | clicking a tab makes its key the active one |
| `HomePage.Page.constructor` | frontend/src/pages/HomePage.jsx:339-348 | the page starts with empty collections, null singletons, the dialog closed and no timer pending |
| `HomePage.Page.LoadAll` | frontend/src/pages/HomePage.jsx:383-409 | fetchAll leaves the page in the state AfterLoad gives for the old state and the seven outcomes |
| `HomePage.Page.FireTimer` | frontend/src/pages/HomePage.jsx:404 | a pending timer fires: one fewer timer pending and the dialog open |
| `HomePage.Page.OnOpenChange` | frontend/src/pages/HomePage.jsx:456 | the dialog's open state becomes v, and a close writes `special_seen = "1"` when storage is writable |
| `HomePage.Page.Hero` | frontend/src/pages/HomePage.jsx:429 | defines the hero picture over the page's current timeline and menu |
| `HomePage.Page.Chef` | frontend/src/pages/HomePage.jsx:446 | defines the about picture over the page's current timeline |

## Left out

- Presentational markup is not modelled. This covers Header, Hero, About, the reviews carousel, Timeline, ChefsChoice, VideoSection and App routing. Timeline's left/right alternation is layout only.
- The Growth chart geometry, `useCountUp`'s interval arithmetic and the scroll-driven parallax clamp are left out. They are floating point and timers with no rule to state.
- Real concurrency and timing are left out:
  - `Promise.all` is one step that takes the seven settled outcomes.
  - `setTimeout` is a pending-timer count plus a firing step, with no clock.
  - The model also does not cover requests still running after the batch has rejected, or results arriving after the page unmounts.
- The dialog library is not part of this model. Whether the Add and footer Close buttons raise `onOpenChange` is unknown, so the model covers only the `onOpenChange` handler itself. Those buttons call only `setOpenSpecial(false)`.
- Audio, the SEO title and meta, the custom cursor, the IntersectionObserver reveal and the toasts are left out. They are side effects with no behaviour to state.
- The browser's `type="email"` format check on the contact form is left out. Only the `required` non-empty check is modelled.
- JSON bodies of unexpected shape are outside the model:
  - an `items` field that is not a list;
  - a falsy non-null singleton such as `0` or `""`.
- `backend/routes_content.py` is the HTTP layer and is left out. Its effect appears on the page as a failed or successful fetch; for example, a missing special gives a 404, which is a failed `/special`.
- `backend_test.py` is a network client, and only its checks on the seed data are restated.
- `frontend/src/mock/mock.js` is constant data that the home page does not import.
- In `seed.py`, the uuid4 values are opaque strings passed in as a parameter. `datetime` and the `create_index` calls at the end of `seed_if_empty` are not modelled.
