# Universe page: a verified model of its state and sync logic

The universe page shows six orbiting topic "satellites" around a hub. The
user opens a satellite, writes a short reflection and marks the topic
completed. Completions are kept per anonymous user against a small REST
backend, and a local fallback covers failed requests. This project models
the logic of `src/components/Universe.jsx` in Dafny and proves what it
promises:

- `Catalog` (`catalog.dfy`): the six built-in satellites. It also models
  how records from `GET /api/satellites` get their icon and colour gradient
  by id, and the rule that an empty result never replaces the catalog.
- `Identity` (`identity.dfy`): `useUserId` as get-or-create over a
  string-to-string store. The freshly generated id is an input.
- `Reflection` (`reflection.dfy`): JavaScript's `trim()` and the UTF-16
  `length`. It also holds the 12-code-unit check that `handleComplete`
  applies and the rule that enables the submit button.
- `Progress` (`progress.dfy`): `new Set(list)`, and how a reply updates the
  completion set. On success the set is replaced by the server's list. On a
  failed submit the item is added to the existing set.
- `Orbit` (`orbit.dfy`): the ring an item sits on (radius 160 at even
  positions, 240 at odd ones) and the visited badge of each item.
- `UniversePage` (`universe.dfy`): the component as a class `Universe`. Its
  five fields are `items`, `completed`, `zoomItem`, `activityText` and
  `loading`. Its methods are the initial load, opening an item, editing the
  draft, closing the modal and submitting. An offline session drives the
  class from start to end.

Network replies are inputs: `Ok(body)`, `NotOk` (a non-OK status) or `Threw`
(a network error or a malformed JSON body). Each handler is one atomic step.

Three behaviours of the code differ from what a reader of the page might
expect, and the model keeps them as written:

- A successful submit does not clear the draft. `handleComplete` never
  resets `activityText`; only opening an item does.
- The progress fetch of the initial load is not independent of the catalog
  fetch. It runs after the catalog fetch, inside the same `try`. So a throw
  while fetching the catalog also skips the progress fetch. A non-OK catalog
  status does not skip it.
- With no item open, `handleComplete` returns before it touches `loading`.
  So "loading ends false" holds on every path except that one, where
  `loading` keeps its value.

## Model

| member | source | states |
|---|---|---|
| Catalog.FallbackIdsInOrder | src/components/Universe.jsx:7-73 | The fallback catalog has six items with ids 1 to 6 in order, and every item has a non-empty colour |
| Catalog.IconFor | src/components/Universe.jsx:158-159 | Ids 1 to 6 get the icon of the fallback item with the same id; every other id gets the generic `Activity` icon |
| Catalog.FindById | src/components/Universe.jsx:159 | `find` by id: nothing is found exactly when no item has the id; otherwise the result is an item with that id and no earlier item has it |
| Catalog.ColorFor | src/components/Universe.jsx:159 | Ids 1 to 6 get the colour of the fallback item with that id; every other id gets `from-blue-400 to-cyan-300` |
| Catalog.EnrichOne | src/components/Universe.jsx:159 | `{ ...it, icon, color }`: the entry carries the record unchanged plus the icon and colour its id selects |
| Catalog.Enrich | src/components/Universe.jsx:159 | Enrichment keeps the server's order and length. Each entry is its record unchanged plus the icon and colour its id selects |
| Catalog.ItemsOrEmpty | src/components/Universe.jsx:159 | `data.items \|\| []`: the list when present; the result is empty exactly when the list is absent or empty |
| Catalog.StripEnrich | src/components/Universe.jsx:159 | Removing icon and colour after enrichment gives back the server's records |
| Catalog.EnrichFallbackRecords | src/components/Universe.jsx:158-159 | Enriching the records of the fallback items gives exactly the fallback catalog, so the id tables agree with the built-in items |
| Catalog.NextItems | src/components/Universe.jsx:155-161 | A non-OK or thrown catalog fetch, or an empty list, keeps the current items; otherwise the enriched list replaces them. A non-empty catalog never becomes empty |
| Identity.GetOrCreateUserId | src/components/Universe.jsx:122-133 | A stored non-empty id is returned and the store is untouched. Otherwise the generated id is written under `universe_user_id` and returned. The store then holds the returned id, and no other key changes |
| Identity.HasUserId | src/components/Universe.jsx:125-126 | The `!uid` test: a missing key (`null`) and an empty stored string both count as no id; any non-empty string counts as one |
| Identity.SecondCallIsStable | src/components/Universe.jsx:125-130 | Once a non-empty id is generated, a later call returns the same id and leaves the store as it is |
| Identity.UserIdNonEmpty | src/components/Universe.jsx:125-129 | The returned id is non-empty whenever the generated one is |
| Reflection.TrimStart | src/components/Universe.jsx:189 | The result is a suffix that does not start with whitespace, and everything dropped is whitespace |
| Reflection.TrimEnd | src/components/Universe.jsx:189 | The result is a prefix that does not end with whitespace, and everything dropped is whitespace |
| Reflection.Trim | src/components/Universe.jsx:189 | `trim()` gives a contiguous slice with no whitespace at either end, and everything removed around it is whitespace |
| Reflection.TrimEmptyIffWhitespace | src/components/Universe.jsx:189 | Trimming leaves nothing exactly when the text is whitespace only |
| Reflection.TrimOfUntrimmed | src/components/Universe.jsx:189 | A text with non-whitespace first and last characters is unchanged by trimming |
| Reflection.TrimIdempotent | src/components/Universe.jsx:189 | Trimming twice is the same as trimming once |
| Reflection.IsWhitespace | src/components/Universe.jsx:189 | The characters `trim()` removes are all in the Basic Multilingual Plane; among ASCII they are exactly tab, LF, VT, FF, CR and space |
| Reflection.Utf16Length | src/components/Universe.jsx:189 | `length` counts UTF-16 code units. A single character counts 2 above U+FFFF and 1 otherwise. A string has between one and two units per character: exactly one each in the Basic Multilingual Plane, exactly two each above it |
| Reflection.Utf16LengthAppend | src/components/Universe.jsx:189 | The code units of a concatenation are the sum of its parts' code units, so with the one-character case the count of every string is fixed |
| Reflection.AstralReflectionAccepted | src/components/Universe.jsx:189 | Six characters above U+FFFF are 12 code units, so such a draft passes the check although it has only six characters |
| Reflection.IsValidReflection | src/components/Universe.jsx:189 | The guard accepts exactly when the trimmed draft has at least 12 code units (the `!activityText` test adds nothing), so at least six characters must survive trimming |
| Reflection.ValidityByTrimmedLength | src/components/Universe.jsx:189 | A trimmed text of at least 12 characters is accepted. For Basic Multilingual Plane text, a draft is accepted exactly when its trimmed text has at least 12 characters |
| Reflection.WhitespaceOnlyRejected | src/components/Universe.jsx:189 | A draft of whitespace only, of any length, is rejected |
| Reflection.SubmitEnabledIffValid | src/components/Universe.jsx:318 | The submit button is enabled exactly when no submit is in flight and `handleComplete` would accept the draft |
| Reflection.SubmitEnabled | src/components/Universe.jsx:318 | The negated `disabled` expression holds exactly when `loading` is false and the line-189 guard accepts the draft |
| Progress.ToSet | src/components/Universe.jsx:167 | `new Set(list)` holds exactly the ids in the list and has no more elements than the list |
| Progress.CompletedList | src/components/Universe.jsx:167 | `data.completed \|\| []`: the list when present; the result is empty exactly when the list is absent or empty |
| Progress.AfterSubmit | src/components/Universe.jsx:198-209 | On an OK reply the set is exactly the reply's ids (empty if the list is absent). On a non-OK status or a throw, the old set plus the item: a superset with nothing else added |
| Progress.AfterLoad | src/components/Universe.jsx:163-169 | On an OK reply the set is exactly the reply's ids; on a failure it is unchanged |
| Progress.AfterSubmitIdempotent | src/components/Universe.jsx:198-209 | Submitting the same item again with the same reply leaves the set unchanged |
| Progress.SuccessIgnoresLocalState | src/components/Universe.jsx:198-201 | After an OK reply the set does not depend on the local set it replaced, and equals what the initial load would set from the same list |
| Progress.FailedSubmitGrowsByOne | src/components/Universe.jsx:202-209 | A failed submit never removes a completion and adds at most one, the item's id |
| Orbit.RingRadius | src/components/Universe.jsx:219 | The radius is 160 or 240, and it is 160 exactly at even positions |
| Orbit.RingRadii | src/components/Universe.jsx:216-222 | There is one radius per item, each chosen by its position's parity. Neighbouring entries differ. The inner ring holds `(n + 1) / 2` of `n` items and the outer ring `n / 2` |
| Orbit.NeighboursAlternate | src/components/Universe.jsx:270 | Neighbouring items are on different rings; items two apart share one |
| Orbit.VisitedFlags | src/components/Universe.jsx:266-275 | There is one badge flag per item, in order, and it is set exactly when the item's id is in the completion set |
| UniversePage.Universe.constructor | src/components/Universe.jsx:137-141 | Initial state: the fallback catalog, nothing completed, no open item, an empty draft, not loading |
| UniversePage.Universe.Radii | src/components/Universe.jsx:266-271 | Each satellite of the current catalog gets a radius, in order: 160 at even positions and 240 at odd ones (the `RingRadius` rule), with neighbours never on the same ring |
| UniversePage.Universe.Badges | src/components/Universe.jsx:266-275 | Each satellite of the current catalog gets a visited badge, in order, shown exactly when its id is in the completion set |
| UniversePage.Universe.SubmitEnabled | src/components/Universe.jsx:318 | The button is enabled exactly when `loading` is false and the draft passes the submit check |
| UniversePage.Universe.LoadData | src/components/Universe.jsx:149-176 | The catalog becomes `NextItems` of the reply. Progress is fetched exactly when the catalog fetch did not throw and a user id exists, and then the set becomes `AfterLoad` of the reply. The open item, the draft and `loading` are unchanged |
| UniversePage.Universe.HandleOpen | src/components/Universe.jsx:178-181 | The open item becomes the given item and the draft becomes empty; nothing else changes |
| UniversePage.Universe.EditDraft | src/components/Universe.jsx:310 | The draft becomes the typed text; nothing else changes |
| UniversePage.Universe.Close | src/components/Universe.jsx:324 | The open item is cleared; nothing else changes |
| UniversePage.Universe.HandleComplete | src/components/Universe.jsx:183-213 | With no item open: a complete no-op with no request. With a rejected draft: no request, nothing changes, and `loading` ends false. Otherwise the request names the user and the item, the set becomes `AfterSubmit` of the reply, the modal closes and `loading` ends false. The catalog and the draft never change |
| UniversePage.SampleReflectionAccepted | src/components/Universe.jsx:189 | The 20-character sample reflection "Esta es mi reflexión" passes the 12-code-unit check |
| UniversePage.OfflineSession | src/components/Universe.jsx:122-213 | With empty storage, the load runs twice (first with the empty id, then with the generated one). Both catalog fetches throw, and so does the submit. The fallback catalog is shown. Submitting item 3 sends its request, and item 3 has its visited badge after the submit and again after reopening |

## Left out

- The orbit angles and the Cartesian positions (lines 144-147, 95-96, 220) are left out. They are floating-point geometry with `Math.PI`, `cos` and `sin`. Only the per-item radius and visited flag are modelled.
- All markup, styling, animation, the 3D embed and the icon components are left out. Icons and colours are opaque tokens. `src/components/Background.jsx` is not part of this model: it is static decoration.
- `fetch`, request headers, JSON parsing, `import.meta.env` and the base URL default are left out. Each response is an input value. A malformed body is the `Threw` outcome. The POST body is the `CompleteRequest` value that `HandleComplete` returns.
- Browser storage and randomness are left out. Storage is a string-to-string map. The output of `crypto.randomUUID` or `Math.random().toString(36).slice(2)` is a parameter of `GetOrCreateUserId`. That output can be empty, so the stability lemma assumes it is not.
- Asynchronous interleaving is left out. Each handler runs as one atomic step, so the `loading` flag is never observed in flight. The functional update `setCompleted(prev => ...)` is applied to the set as it was when the handler started. The re-run of the load effect when the user id changes is left to the caller, who can call `LoadData` once per run. The first run has the empty id.
- Satellite ids are integers. A string id from the server would find an icon (object keys are strings) but no colour (`===` fails). That case is not modelled, and neither are record fields other than id, title, question, chips, detail and activity.
- JavaScript strings are sequences of UTF-16 code units and may hold an unpaired surrogate. A Dafny `string` holds Unicode scalar values only, so such a draft cannot be represented. Its `length` and `trim()` are not modelled.
