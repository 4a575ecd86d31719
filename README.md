# Portfolio application model

This project is a Dafny model of the behavioural core of a single-page portfolio application (React/TypeScript). It models each piece below and proves the properties the components promise.

- **Project listing.** The category-and-search filter, the Clear Filters action, and what each project card shows: tech badges, the "+N more" count, and the Live / Code / Details links.
- **Project detail page.** The total decision between redirect, NDA-restricted layout and full layout. Which links and sections the full layout shows.
- **Start-up loader.** A 100-tick progress counter: its status labels, the one-time preload at tick 40, the cosmetic number glitch and its restore, and the two-step completion callback.
- **Capability probe.** Decides low-end device, reduced motion and connection class. The hero section uses it to choose between the 3D canvas and a gradient fallback.
- **Header and layout chrome.** The scroll thresholds (50 and 400), the mobile drawer that closes on every navigation, the active navigation item, and listener teardown.
- **Contact form.** The field schema, per-field errors, and the submit / complete state machine: `isSubmitting`, the status banner, and reset on success.
- **Neural-network visual.** The layered graph (5, 8, 8, 5 nodes, full bipartite joins between adjacent layers). The activation rules: the wave, mouse proximity, and expiry after 1500 ms. Teardown of the frame loop and both listeners.
- **Application shell.** The one-way Loading → Ready flag, the guarantee that exactly one of loader and application is on screen, and the route table as data.
- **Image with loading state.** Two monotone flags and the render branch they select.

Where the source mutates state, the model is a class with `modifies` frames:

- the loader;
- the header;
- the layout;
- the listing page's filter state;
- the contact form;
- the network;
- the application shell;
- the image.

The graph construction keeps the source's loops, as methods proved equal to the functions `NeuralGraph.InitialNodes` and `NeuralGraph.InitialConnections`. The rest is pure functions and lemmas.

The model turns the environment into parameters:

- **Timers and listeners.** Timer and listener callbacks are methods. A method's precondition says its timer was scheduled.
- **Randomness.** `Math.random()` outcomes are parameters, for example `Tick(glitch)` and `GlitchNumber(n, glitch, pick)`.
- **Clock.** `Date.now()` is a `now: int` parameter.
- **Mouse distance.** The `distance < 100` test against the mouse is a `near: seq<bool>` parameter.
- **Catalog lookup.** `getProject` is a function parameter.
- **Email check.** The e-mail validator is a parameter `isEmail`.
- **Browser probe.** `navigator` and `matchMedia` become the `Performance.Signals` record.
- **Node references.** The network's node objects are held in a sequence, and a connection names its endpoints by index. With that, `conn.from === node` becomes index equality.

## Model

| member | source | states |
|---|---|---|
| Common.OrElse | src/pages/Projects.tsx:172-174 | `a \|\| b` on optional strings: the result is truthy iff either operand is, and it is the first operand exactly when that operand is truthy, otherwise the second |
| Text.Lower | src/pages/Projects.tsx:16-19 | each capital A-Z becomes its own small letter and every other character is kept, so the length is kept, no capital is left, and a string without capitals is unchanged |
| Text.Includes | src/pages/Projects.tsx:16-19 | the empty pattern is included in every string, and a pattern longer than the string never is |
| Text.LowerSameUpToCase | src/pages/Projects.tsx:16-19 | two strings that differ only in the case of ASCII letters lower-case to the same string |
| Text.IncludesIff | src/pages/Projects.tsx:17-19 | the executable `includes` holds iff the pattern occurs at some position of the string |
| Projects.MatchesCategory | src/pages/Projects.tsx:13 | definition: the "All" category, or the project's own category |
| Projects.MatchesSearch | src/pages/Projects.tsx:14-18 | definition: an empty query, or the lower-cased query in the lower-cased title, description or some tech entry |
| Projects.Keeps | src/pages/Projects.tsx:20 | definition: both the category and the search test pass |
| Projects.Filter | src/pages/Projects.tsx:11-22 | the result is no longer than the catalog and holds only catalog projects that pass both tests |
| Projects.FilterSelectsMatchingInOrder | src/pages/Projects.tsx:12-23 | the filtered list is the subsequence of the catalog at strictly increasing positions, and a position is selected iff its project passes both the category and the search tests |
| Projects.FilterAlongPositions | src/pages/Projects.tsx:12-23 | the k-th filtered project is the catalog entry at the k-th matching position |
| Projects.PositionsIncreasing | src/pages/Projects.tsx:12-23 | the matching positions are strictly increasing, so catalog order is kept |
| Projects.PositionsExact | src/pages/Projects.tsx:13-22 | a catalog position is among the matching positions iff its project passes both tests |
| Projects.PositionsBounded | src/pages/Projects.tsx:12-23 | every matching position is a valid catalog index |
| Projects.FilterMembership | src/pages/Projects.tsx:13-22 | a project is in the result iff it is in the catalog and passes both tests |
| Projects.FilterRespectsCategory | src/pages/Projects.tsx:14-21 | with a category other than "All", every returned project has that category |
| Projects.FilterAllEmptyIsIdentity | src/pages/Projects.tsx:14-16 | with "All" and an empty query the whole catalog is returned, in order |
| Projects.SomeTechIncludesIff | src/pages/Projects.tsx:19 | `tech.some(...)` holds iff some lower-cased tech entry contains the query |
| Projects.SearchMeaning | src/pages/Projects.tsx:15-19 | a project passes the search iff the query is empty or the lower-cased query occurs in the lower-cased title, description or some tech entry |
| Projects.SearchIgnoresQueryCase | src/pages/Projects.tsx:15-18 | two queries that differ only in the case of their letters, such as a query and its lower-cased form, list the same projects |
| Projects.SearchCaseExample | src/pages/Projects.tsx:15-18 | "REACT" and "react" list the same projects |
| Projects.SearchTitleExample | src/pages/Projects.tsx:15-16 | a project titled "React" is found by the query "react" |
| Projects.CardFor | src/pages/Projects.tsx:113-198 | a card shows the first min(4, n) tech entries, a "+more" count exactly when n > 4 adding up to n, a Live link iff the live URL is truthy, a Code link iff not NDA and some source URL is truthy (GitHub preferred), a Details link to "/projects/" + id iff not NDA, the NDA and Featured badges from the record, and the record's category, title and description |
| Projects.ListingFor | src/pages/Projects.tsx:88-208 | the count equals the number of cards, which is one per filtered project in order; the plural "s" shows iff the count is not 1; the empty state shows iff no catalog project passes |
| Projects.ProjectsPage.constructor | src/pages/Projects.tsx:8-9 | the page starts with category "All" and an empty query |
| Projects.ProjectsPage.SelectCategory | src/pages/Projects.tsx:73 | a category button sets the category and keeps the query |
| Projects.ProjectsPage.SetSearchQuery | src/pages/Projects.tsx:58 | typing sets the query and keeps the category |
| Projects.ProjectsPage.ClearFilters | src/pages/Projects.tsx:215-219 | Clear Filters restores "All" and "", after which every project is listed and the empty state shows only for an empty catalog |
| ProjectDetail.Resolve | src/pages/ProjectDetail.tsx:7-14 | a missing/empty slug or unknown id redirects to "/projects" with replace; a found NDA record gives the restricted layout with its title and tech; any other found record gives its full layout |
| ProjectDetail.Lookup | src/pages/ProjectDetail.tsx:8 | definition: no project for a missing or empty slug, otherwise the catalog lookup of the slug |
| ProjectDetail.FullLayoutFor | src/pages/ProjectDetail.tsx:85-260 | the live link shows iff the live URL is truthy, the source link iff a GitHub or GitLab URL is truthy (GitHub preferred), in the header and the sidebar alike; Key Features shows iff highlights are present and non-empty; featured badge, category, title, description, overview and tech come from the record |
| ProjectDetail.NdaHidesLinks | src/pages/ProjectDetail.tsx:14-60 | an NDA record renders no external link and never the full layout |
| ProjectDetail.FullLayoutLinks | src/pages/ProjectDetail.tsx:98-120 | a non-NDA record renders exactly its truthy live URL and its preferred truthy source URL |
| ProjectDetail.DetailsLinkOpensFullLayout | src/pages/ProjectDetail.tsx:7-14 | following a listing card's Details link with a lookup that finds the record lands on that record's full layout |
| HackingLoader.StatusIndex | src/components/ui/HackingLoader.tsx:112-113 | the label index is always in range, and for progress 0..100 it is the floor of progress × 9 / 100, clamped to 8 |
| HackingLoader.StatusIndexMonotone | src/components/ui/HackingLoader.tsx:112-113 | the label index never goes backwards as progress grows |
| HackingLoader.StatusLabel | src/components/ui/HackingLoader.tsx:15-25 | the label is one of the nine messages, "INITIALIZING SYSTEM" below 12 and "ACCESS GRANTED" at 100 |
| HackingLoader.GlitchNumber | src/components/ui/HackingLoader.tsx:128-134 | the overlay shows the number unless the glitch draw fires, and then one of the eight glitch symbols |
| HackingLoader.Loader.constructor | src/components/ui/HackingLoader.tsx:10-12 | progress 0, text "INITIALIZING", overlay shown, interval running, no preload and no completion yet |
| HackingLoader.Loader.Tick | src/components/ui/HackingLoader.tsx:93-122 | one interval tick: the counter advances by one; preload is called exactly at tick 40; the shown progress is the glitch value or the counter; a glitch schedules one restore; the label follows the counter; at 100 the interval stops and the hide timer is scheduled |
| HackingLoader.Loader.RestoreGlitch | src/components/ui/HackingLoader.tsx:106 | the 50 ms restore puts the real counter back on screen |
| HackingLoader.Loader.HideOverlay | src/components/ui/HackingLoader.tsx:117-118 | the first 500 ms timer hides the overlay and schedules completion |
| HackingLoader.Loader.FireComplete | src/components/ui/HackingLoader.tsx:119 | the second timer calls the completion callback exactly once, with the counter at 100 |
| HackingLoader.Loader.Unmount | src/components/ui/HackingLoader.tsx:124 | the cleanup clears the interval |
| HackingLoader.Run | src/components/ui/HackingLoader.tsx:83-125 | for any glitch draws, a full run ends at 100 with "ACCESS GRANTED", the preload called once, the completion called once, and the overlay and interval gone |
| Performance.InitialMetrics | src/hooks/usePerformance.ts:10-14 | before the probe runs: not low-end, no reduced motion, unknown connection |
| Performance.ConnectionOf | src/hooks/usePerformance.ts:28 | the standard, then the Mozilla, then the WebKit connection object is used, and none iff all three are absent |
| Performance.SpeedOf | src/hooks/usePerformance.ts:29-34 | unknown iff there is no connection object; slow iff its effective type is slow-2g, 2g or 3g; fast otherwise, including a missing effective type |
| Performance.Probe | src/hooks/usePerformance.ts:16-40 | low-end iff a non-zero core count below 4 or a non-zero memory below 4 is reported; reduced motion is the media query; the connection class is as above |
| Performance.LowEnd | src/hooks/usePerformance.ts:21-24 | definition: a non-zero core count below 4 or a non-zero memory below 4 GB is reported |
| Performance.LowEndMonotone | src/hooks/usePerformance.ts:21-24 | reporting fewer cores or less memory (still non-zero) keeps a low-end device low-end |
| Performance.LowEndExamples | src/hooks/usePerformance.ts:21-24 | 2 cores or 2 GB is low-end; 4/4, 8/8, unreported and zero values are not |
| HeroSection.CanvasFor | src/components/sections/HeroSection.tsx:23-98 | the low-end settings (32×32 sphere, distort 0.3, speed 1, 300 particles, DPR 1) and the full settings (100×200, 0.5, 2, 1000, DPR 1–2); antialiasing iff not low-end; the position buffer has three entries per particle |
| HeroSection.ShouldRender3D | src/components/sections/HeroSection.tsx:82-83 | definition: neither reduced motion nor low-end |
| HeroSection.BackgroundFor | src/components/sections/HeroSection.tsx:82-111 | the 3D canvas renders iff neither reduced motion nor low-end holds, and then always with the full settings |
| HeroSection.LowEndBranchesUnreachable | src/components/sections/HeroSection.tsx:83-104 | the low-end 3D settings are never rendered, since the canvas is mounted only when not low-end |
| HeroSection.ProbedBackground | src/components/sections/HeroSection.tsx:82-93 | with probed metrics, the canvas renders iff the device does not prefer reduced motion and is not low-end |
| HeroSection.FirstRenderSelectsCanvas | src/components/sections/HeroSection.tsx:82-93 | on the first render, before the probe effect, every device starts the full 3D canvas |
| Header.ActiveFrom | src/components/layout/Header.tsx:66-67 | the first navigation item from a position whose href equals the pathname, or none iff no such item exists |
| Header.IsActive | src/components/layout/Header.tsx:66-67 | definition: the item's href equals the pathname exactly |
| Header.HrefsDistinct | src/components/layout/Header.tsx:6-12 | the five navigation hrefs are pairwise distinct |
| Header.AtMostOneActive | src/components/layout/Header.tsx:66-67 | at most one navigation item is active for any pathname |
| Header.DetailPathActivatesNothing | src/components/layout/Header.tsx:66-67 | on a project detail path no navigation item is active (exact match, not prefix) |
| Header.HeaderState.constructor | src/components/layout/Header.tsx:15-26 | drawer closed, not scrolled, scroll listener attached |
| Header.HeaderState.OnScroll | src/components/layout/Header.tsx:20-22 | while listening, `scrolled` is scrollY > 50; after teardown nothing changes |
| Header.HeaderState.ToggleMenu | src/components/layout/Header.tsx:111 | the menu button flips the drawer |
| Header.HeaderState.Navigate | src/components/layout/Header.tsx:28-30 | every location change closes the drawer |
| Header.HeaderState.Unmount | src/components/layout/Header.tsx:25 | the cleanup removes the scroll listener |
| Header.HeaderState.ActiveItem | src/components/layout/Header.tsx:66-67 | the highlighted item's href is the current pathname, and an item is highlighted iff some navigation href equals the pathname |
| Header.HeaderState.MobileMenuShown | src/components/layout/Header.tsx:121-122 | definition: the drawer renders iff `isOpen` |
| Layout.LayoutState.constructor | src/components/layout/Layout.tsx:13-20 | scroll-to-top hidden, listener attached |
| Layout.LayoutState.OnScroll | src/components/layout/Layout.tsx:16-18 | while listening, the button shows iff scrollY > 400; after teardown nothing changes |
| Layout.LayoutState.Unmount | src/components/layout/Layout.tsx:21 | the cleanup removes the scroll listener |
| Layout.LayoutState.ScrollToTopRendered | src/components/layout/Layout.tsx:47 | definition: the button renders iff `showScrollTop` |
| Layout.ChromeFlags | src/components/layout/Layout.tsx:15-22 | the header background and the scroll-to-top button, from one offset: the button implies the background, and only the background shows exactly for 50 < y <= 400 |
| Layout.ThresholdExamples | src/components/layout/Layout.tsx:17 | offsets 0, 200 and 500 give neither, the background only, and both |
| Layout.ScrollBoth | src/components/layout/Layout.tsx:15-22 | one scroll event delivered to both listeners leaves them at the two thresholds, so the button never shows on a transparent header |
| Contact.SchemaValidIff | src/pages/Contact.tsx:8-13 | the data is valid iff the name has at least 2 characters, the e-mail passes the e-mail check, the subject at least 5 and the message at least 10 |
| Contact.ErrorsArePerField | src/pages/Contact.tsx:8-13 | each field has an error iff its own rule fails, independently of the other fields |
| Contact.FieldErrors | src/pages/Contact.tsx:8-13 | definition: the set of fields whose rule fails |
| Contact.SchemaValid | src/pages/Contact.tsx:8-13 | definition: no field fails |
| Contact.ContactForm.constructor | src/pages/Contact.tsx:39-49 | empty fields, not submitting, status idle, no errors, nothing sent |
| Contact.ContactForm.Edit | src/pages/Contact.tsx:99-185 | typing replaces the field values |
| Contact.ContactForm.Submit | src/pages/Contact.tsx:51-53 | invalid data only records the field errors; valid data starts submitting with status idle and queues the data; a submit while submitting changes nothing |
| Contact.ContactForm.Complete | src/pages/Contact.tsx:56-65 | success records the sent data, shows the success status and resets the form; failure shows the error status and keeps the fields; either way submitting ends |
| Contact.ContactForm.ShownBanners | src/pages/Contact.tsx:212-230 | the success banner shows iff the status is success, the error banner iff it is error, never both, and neither while submitting |
| Contact.ContactForm.FieldMessage | src/pages/Contact.tsx:112-182 | a field shows a message iff it has an error, and the message is that field's schema message |
| Contact.ErrorMessage | src/pages/Contact.tsx:9-12 | definition: the four schema messages, one per field |
| Contact.ContactForm.SubmitDisabled | src/pages/Contact.tsx:189 | the button is disabled exactly while submitting, and then no banner shows |
| Contact.SubmitOnce | src/pages/Contact.tsx:51-66 | a submission attempt is accepted iff the data is valid; a rejected one keeps the fields, records their errors and sends nothing; an accepted one ends with the outcome's status and, on success, exactly that data sent and the form reset, on failure the fields kept |
| NeuralGraph.BuildNodes | src/components/ui/NeuralNetwork.tsx:59-80 | the nested loops build exactly `NeuralGraph.InitialNodes`, the layered node list |
| NeuralGraph.PushRow | src/components/ui/NeuralNetwork.tsx:89-96 | the inner loop appends one source node's connections to every node of the next layer, in order |
| NeuralGraph.PushBlock | src/components/ui/NeuralNetwork.tsx:88-97 | the loop over the current layer's nodes appends that layer's whole block of connections |
| NeuralGraph.BuildConnections | src/components/ui/NeuralNetwork.tsx:83-100 | the three loops build exactly `NeuralGraph.InitialConnections`, the sequence of layer-to-next-layer connections |
| NeuralGraph.NodesUpTo | src/components/ui/NeuralNetwork.tsx:64-80 | after the first l layers there is one node per slot of those layers |
| NeuralGraph.InitialNodes | src/components/ui/NeuralNetwork.tsx:64-80 | the built node list has one node per slot of all layers |
| NeuralGraph.JoinsUpTo | src/components/ui/NeuralNetwork.tsx:83-100 | definition: the blocks of the first l adjacent layer pairs, in order |
| NeuralGraph.InitialConnections | src/components/ui/NeuralNetwork.tsx:83-100 | definition: the blocks of all adjacent layer pairs, none for an empty layer list |
| NeuralGraph.NodesUpToShape | src/components/ui/NeuralNetwork.tsx:64-80 | the nodes are stored contiguously by layer, inactive, with activation time 0 |
| NeuralGraph.NodeInLayer | src/components/ui/NeuralNetwork.tsx:64-80 | an index in layer m's range holds a node whose layer is m |
| NeuralGraph.OffsetMonotone | src/components/ui/NeuralNetwork.tsx:83-99 | layer start offsets never decrease |
| NeuralGraph.LayerUnique | src/components/ui/NeuralNetwork.tsx:64-80 | a node index lies in exactly one layer |
| NeuralGraph.RowMember | src/components/ui/NeuralNetwork.tsx:89-96 | one source node's row connects it to exactly the next layer's nodes |
| NeuralGraph.BlockMember | src/components/ui/NeuralNetwork.tsx:88-97 | a layer's block holds exactly the connections from its nodes to the next layer's |
| NeuralGraph.JoinsMember | src/components/ui/NeuralNetwork.tsx:84-100 | a connection is built iff it is inactive and joins some layer to the next one |
| NeuralGraph.ConnectionGoesForward | src/components/ui/NeuralNetwork.tsx:83-100 | every built connection goes from layer l to layer l + 1 |
| NeuralGraph.AdjacentNodesConnected | src/components/ui/NeuralNetwork.tsx:83-100 | every pair of nodes in adjacent layers is connected |
| NeuralGraph.FullBipartiteJoin | src/components/ui/NeuralNetwork.tsx:83-100 | the connections are exactly the full bipartite joins between adjacent layers |
| NeuralGraph.BlockLength | src/components/ui/NeuralNetwork.tsx:88-97 | a block has one connection per pair of source and target nodes |
| NeuralGraph.ConcreteSizes | src/components/ui/NeuralNetwork.tsx:59-100 | layers 5, 8, 8, 5 give 26 nodes and 144 connections |
| NeuralNetwork.CurrentLayer | src/components/ui/NeuralNetwork.tsx:139 | the wave's layer is always one of the four layers |
| NeuralNetwork.WaveAdvancesOneLayerAtMost | src/components/ui/NeuralNetwork.tsx:137-153 | one frame later the wave is on the same layer or the next one, cyclically |
| NeuralNetwork.SuccessorStep | src/components/ui/NeuralNetwork.tsx:121-129 | scanning one more connection adds exactly its target as a successor, when it leaves the node and is not a self-loop |
| NeuralNetwork.SameEndsSameSuccessors | src/components/ui/NeuralNetwork.tsx:121-129 | changing connections' active flags does not change which nodes are successors |
| NeuralNetwork.ReachedStep | src/components/ui/NeuralNetwork.tsx:111-131 | visiting one more node in the mouse pass adds exactly that node (if near) and its successors |
| NeuralNetwork.FrameLightsWaveLayer | src/components/ui/NeuralNetwork.tsx:144-176 | the expiry pass never puts out a node the wave lit in the same frame |
| NeuralNetwork.FrameExpiresOtherLayers | src/components/ui/NeuralNetwork.tsx:172-176 | off the wave's layer, a node ends the frame inactive iff it was inactive or older than 1500 ms |
| NeuralNetwork.PrunedKeepsLitEndpoint | src/components/ui/NeuralNetwork.tsx:178-183 | after pruning, every lit connection was lit before and has a lit endpoint, and no connection moves |
| NeuralNetwork.Network.constructor | src/components/ui/NeuralNetwork.tsx:52-134 | the effect builds the graph `NeuralGraph.InitialNodes` / `NeuralGraph.InitialConnections`, starts the wave at 0, and attaches both listeners and the frame loop |
| NeuralNetwork.Network.ActivateOutgoing | src/components/ui/NeuralNetwork.tsx:146-150 | exactly the connections leaving the node become active |
| NeuralNetwork.Network.ActivateWave | src/components/ui/NeuralNetwork.tsx:138-154 | the nodes become `WaveNodes` of the old nodes (exactly the current layer activated at `now`) and the connections `WaveConnections` (exactly those leaving that layer lit); the wave advances by 0.015 |
| NeuralNetwork.Network.ExpireActivations | src/components/ui/NeuralNetwork.tsx:172-183 | the nodes become `ExpiredNodes` of the old ones (deactivated iff active for more than 1500 ms) and the connections `PrunedConnections` over the new nodes (deactivated iff neither endpoint is still active) |
| NeuralNetwork.Network.Frame | src/components/ui/NeuralNetwork.tsx:158-183 | without the in-view flag a frame changes nothing; with it the whole new state is the expiry pass applied after the wave pass, the wave advances, the current layer is freshly active, and every active connection has an active endpoint |
| NeuralNetwork.Network.TouchNode | src/components/ui/NeuralNetwork.tsx:121-129 | the connections touching the node become active and exactly its successors are activated at `now` |
| NeuralNetwork.Network.MouseMove | src/components/ui/NeuralNetwork.tsx:103-131 | exactly the near nodes and their successors are activated, exactly the connections touching a near node become active, and nothing else changes |
| NeuralNetwork.Network.Cleanup | src/components/ui/NeuralNetwork.tsx:265-269 | the cleanup cancels the frame and removes the resize and mousemove listeners |
| NeuralNetwork.MouseSparesPredecessors | src/components/ui/NeuralNetwork.tsx:122-127 | on the built graph, a node in the layer before the only near node is not activated by the mouse |
| App.RouteTableShape | src/App.tsx:59-67 | seven distinct paths, no catch-all, the only parameterised entries are /projects/:slug and /blog/:slug, each a static entry followed by /:slug |
| App.AppState.constructor | src/App.tsx:32-39 | the app starts loading and has not refreshed the scroll triggers |
| App.AppState.HandleLoadingComplete | src/App.tsx:34-43 | completion moves to Ready for good, and the scroll triggers are refreshed exactly once, on the change |
| App.AppState.Rendered | src/App.tsx:48-51 | exactly one of the loader and the main application renders, the loader iff still loading |
| App.StartUp | src/App.tsx:31-51 | for any glitch draws, the loader runs to 100 and fires its callback once, after which the main application is on screen with one refresh |
| ImageWithLoading.ImageState.constructor | src/components/ui/ImageWithLoading.tsx:17-18 | both flags start false |
| ImageWithLoading.ImageState.OnLoad | src/components/ui/ImageWithLoading.tsx:23 | the load callback sets `isLoaded` |
| ImageWithLoading.ImageState.OnError | src/components/ui/ImageWithLoading.tsx:24 | the error callback sets `error` |
| ImageWithLoading.ImageState.SetSrc | src/components/ui/ImageWithLoading.tsx:20-25 | a new source keeps both flags |
| ImageWithLoading.ImageState.View | src/components/ui/ImageWithLoading.tsx:27-45 | the fallback renders iff there is an error; otherwise the placeholder shows iff not loaded and the target opacity is 1 iff loaded, else 0 |
| ImageWithLoading.LastSrc | src/components/ui/ImageWithLoading.tsx:20-25 | the source after a run of events is the starting source or one of the source changes, and the starting source when there is no change |
| ImageWithLoading.LastSrcIsLast | src/components/ui/ImageWithLoading.tsx:20-25 | when the events hold a source change, the source after them is the last such change |
| ImageWithLoading.Replay | src/components/ui/ImageWithLoading.tsx:17-25 | over any sequence of callbacks and source changes, each flag ends set iff it was set before or its callback occurred, and the source ends as `LastSrc` of the events, which is the last source change by `LastSrcIsLast` |

## Left out

- Text.Lower: only the ASCII letters A-Z are mapped. JavaScript `toLowerCase` applies the full Unicode case mapping, which changes other letters and can change the length (for example "İ" becomes two code points), so "keeps the length" holds of the model only.
- Projects.SearchMeaning: the search inherits the ASCII-only lower-casing of `Text.Lower`.
- String lengths are counted in characters. The source counts UTF-16 code units, which differs outside the Basic Multilingual Plane. This affects the contact schema's `min` rules only; the tech badge count is an array length.
- Contact.SchemaValidIff: the e-mail rule is the `isEmail` parameter, because the library's e-mail check is not part of this model.
- Contact.ContactForm.Submit: the form library is reduced to what it decides. A submission either reports per-field errors or calls the handler with the data.
- Contact.ContactForm.Edit: typing replaces the field values only. The form library's revalidation while typing after a failed submit is not modelled, so the recorded errors stay until the next submit.
- Contact.ContactForm.Complete: the simulated send in the source always resolves (a two-second timeout, then success), so the error status has no trigger as written. The outcome is an input, so both branches can be stated.
- Canvas drawing, colours, signal particles, node drift and bounce, the matrix rain, and the 3D sphere and particle animation are not modelled. These are floating point and direct draw calls. The network's node coordinates are not kept either. Distance to the mouse is the `near` input.
- NeuralNetwork.Network.Frame: `waveTime` is kept exactly in thousandths. The source accumulates 0.015 in floating point, which can drift at layer boundaries. The source also reads the clock once in the frame and again inside the wave; the model uses one `now` for both. These give the same outcome, since a node activated in the same frame is never older than 1500 ms.
- NeuralNetwork.Network.MouseMove: the source calls `Date.now()` again for each node it activates in one mouse event. The model uses one `now` for the whole event, so nodes activated in one event share one activation time.
- NeuralNetwork.Network.constructor: the effect re-runs when the in-view flag changes. The model is one effect run, with the flag fixed for its lifetime; a re-run is a new object after `Cleanup`. The early return when there is no canvas or context is not modelled.
- HackingLoader.Loader: the effect depends on `onComplete`. A new callback identity would restart the interval. The application shell passes a fresh function on every render, but it re-renders only when loading ends, so the model assumes one effect run.
- Performance.Probe: the probe runs once after mount. It is modelled as a function of the environment signals, with `InitialMetrics` as the value before the effect.
- App: route matching, `lazy`/`Suspense` code splitting, the page loader and the router basename are library behaviour. The route table is kept as data only.
- The catalog module (the project list, the categories and `getProject`) is not part of this model. The catalog is a parameter, and `getProject` is a function parameter.
- ImageWithLoading.ImageState.SetSrc: an earlier image's callbacks can still fire after the source changes. The model lets `OnLoad`/`OnError` be called at any time, which covers that, but it does not say which image they belong to.
- Pure-markup components (footer, other sections, the cursor) and the e-mail/phone contact list are presentation only.
- Layout.ScrollBoth: the header owns the 50 px flag and the layout owns the 400 px flag, each with its own scroll listener. No single component tracks both; `Layout.ScrollBoth` states what holds when one scroll event reaches both listeners.
- App.RouteTableShape: the route table has two parameterised entries, `/projects/:slug` and `/blog/:slug`, and no catch-all route; an unknown path matches nothing. The table is kept as data.
