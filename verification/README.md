# Optionia WooCommerce: a verified model

This project models the parts of the Optionia platform whose correctness is hardest to see from
reading one function, and proves what the rest of the system relies on:

- **Sessions.** Refresh-token rotation as a concurrent protocol: any number of `rotate` calls
  interleaved one SQL statement at a time (read, conditional claim, insert, link, re-check, sweep)
  over one table.
- **Design geometry.** The shared code that both the storefront and the print file draw with: the
  greedy wrap, the shrink-to-fit bisection, layer and crop rectangles, the letterbox, curved text,
  scene building and the SVG emitter. Numbers are reals, text is a sequence of code points, and the
  sine and cosine of half the swept angle are reals on the unit circle with the signs the angle gives, and
  minus one for the cosine at a full turn only.
- **Billing.** The webhook record, the retry worker and its twin the render worker, the subscription
  lifecycle with its grace clock, the invoice mapper and the tax report. Rows are values in a table, the
  unique index is an atomic insert, a handler's outcome is an input.
- **Smaller cores.** The CSV export with a reader for it, conditional configuration delivery, the
  plugin's service container, and the paging of the audit trail.

Code that changes state is modelled by classes and loops, each proved against a specification
function; the theorems are about those functions, over every input, run or interleaving.

`dafny verify dfyconfig.toml` checks the whole project. One module per component; `Common.dfy` holds
what several share.

## What the code does not keep

Nine promises or expectations are stronger than the code. Each has the exact condition under which it
holds, and each protocol a concrete run where it fails.

- A logout is described as ending the session. When it lands between a concurrent claim and the
  insert of its replacement the replacement survives, because the re-check looks for
  `reuse_detected` only (`Sessions.LogoutDuringRotation`). It does end the session exactly when no such
  call is under way or reuse is already recorded (`Sessions.LogoutEndsExactly`).
- `processedAt` is described as meaning that an event's effect was applied exactly once. Two
  deliveries at once can both run the handler (`Webhook.HandlerRunsTwice`), and a mark that fails or is
  lost to a crash lets a later one run it again. `Webhook.AppliedTwiceExactly` says when, and
  `Webhook.RunsAgainExactly` how often a processed event can still run.
- The stamped `attempts` is described as carrying ownership of a claimed row. Two overlapping passes
  can bring a dead-lettered row back (`Webhook.DeadRowRevived`); it stays dead exactly when no pass has
  still to settle an earlier attempt on it (`Webhook.StaysDeadExactly`).
- A document is described as reproducible under its version. Its store row, sets, snapshots and
  assignments are read one after another with no transaction, so a publish between two of the reads
  leaves newer content under the older version (`ConfigDelivery.TornDocumentCached`).
  `ConfigDelivery.GenuineExactly` says when it is the published one. Because the version is the first
  thing read, such a copy is never answered `not modified` (`ConfigDelivery.NotModifiedMeansCurrent`).
- A line of text is inside its box except for a lone code point wider than the box
  (`Scene.FlatLinesBetweenSides`).
- An arc's box is described as exactly its glyphs' edges. A ring closes from a curve of 99.9 on, but its
  box is measured over the turn it sweeps, so under 100 the far side is drawn outside
  (`ArcGeometry.NearlyClosedOvershoots`); in every other case all of it is inside
  (`ArcGeometry.DrawnInside`).
- Scenes on one page are described as never referring to each other's masks. They share frame ids
  exactly when their prefixes agree once colons are removed (`SvgEmitter.IdsAcrossScenes`).
- A greedy wrap is minimal only when each code point lengthens the run, or a run of two already fits
  (`TextGeometry.GreedyMinimalExactly`): a letter spacing more negative than the advance breaks it.
- A CSV table comes back only if every row has a cell and the last row is not one empty cell
  (`Csv.RoundTrip`).

## Model

| member | source | states |
|---|---|---|
| Sessions.StructureKept | optioniaWooCommerceBackend/src/auth/sessions.service.ts:100-187 | Every statement of every interleaved call, and every sweep, keeps the table well formed: hashes unique, one claiming call per spent row, links and calls in step; no statement rewrites a hash, a family, a spent mark or a revocation |
| Sessions.SingleUse | optioniaWooCommerceBackend/src/auth/sessions.service.ts:134-162 | In every reachable state of any number of interleaved calls, spendable rows of a family plus calls between claim and insert are at most one |
| Sessions.ExchangedOnce | optioniaWooCommerceBackend/src/auth/sessions.service.ts:134-187 | Two calls that both succeed presented different tokens and were handed different ones |
| TokenLives.StepWrites | optioniaWooCommerceBackend/src/auth/sessions.service.ts:77-230 | Every write of every action: hash, family, user and expiry of a row are never rewritten, a mark bears the time it was made and its own reason, and a new row has what its login or exchange gave it and continues the presented token's session |
| TokenLives.AsMinted | optioniaWooCommerceBackend/src/auth/sessions.service.ts:80-162 | In every legal run each row still has the expiry that the login or exchange which minted it gave |
| TokenLives.ExpiryDecides | optioniaWooCommerceBackend/src/auth/sessions.service.ts:100-120 | A call that reads its token at or after the expiry it was minted with is never refreshed, however the run goes on, and ends `expired` exactly then unless the token was already revoked |
| Sessions.LinksFormTheChain | optioniaWooCommerceBackend/src/auth/sessions.service.ts:150-166 | `replacedById` only ever names the next row of the same family; once the family's calls have finished the links are the whole chain |
| Sessions.ReuseRevokesFamily | optioniaWooCommerceBackend/src/auth/sessions.service.ts:134-185 | Over all interleavings with no logout or password sweep of the family: once its calls have finished, either some call ended `reused` and every row is revoked for reuse, or none did and exactly the newest row is spendable |
| Sessions.RecordedReuseRevokesFamily | optioniaWooCommerceBackend/src/auth/sessions.service.ts:168-185 | In every run whatever, logouts and password changes included: a finished family with a row revoked for reuse has no unrevoked row |
| Sessions.LogoutDuringRotation | optioniaWooCommerceBackend/src/auth/sessions.service.ts:177-203 | A run in which a logout lands between a claim and its insert: one call ends `reused`, nothing is recorded as reuse, and a spendable token survives the logout |
| Sessions.LogoutEndsExactly | optioniaWooCommerceBackend/src/auth/sessions.service.ts:196-230 | A logout or password change ends a session for good, over every later run that finishes the family's calls, if and only if at its sweep no call of the family is between claim and insert or reuse is already recorded |
| Sessions.UserSweepIsFamilySweep | optioniaWooCommerceBackend/src/auth/sessions.service.ts:217-222 | A family is one user's in every reachable state, so revoking by user is revoking that user's families and nothing else |
| Sessions.SessionsService.RevokeAllForUser | optioniaWooCommerceBackend/src/auth/sessions.service.ts:217-222 | A password change revokes every row of the user that was not revoked yet and leaves all other rows as they were |
| Sessions.ExchangeIsTheCall | optioniaWooCommerceBackend/src/auth/sessions.service.ts:100-188 | An uninterrupted exchange is the protocol's call run statement by statement to its end |
| Sessions.ExchangeByColumns | optioniaWooCommerceBackend/src/auth/sessions.service.ts:100-187 | What one exchange answers and writes, column by column, for every state of the presented row |
| Sessions.ReplayEndsTheSession | optioniaWooCommerceBackend/src/auth/sessions.service.ts:94-147 | Presenting a token twice: the first succeeds, the second is `reused`, and afterwards the replacement is refused and every row of the family, and of no other, is revoked |
| Sessions.SessionsService.Issue | optioniaWooCommerceBackend/src/auth/sessions.service.ts:77-92 | A login appends one unmarked row with the given hash, family, user and expiry |
| Sessions.SessionsService.Rotate | optioniaWooCommerceBackend/src/auth/sessions.service.ts:100-188 | One exchange, column by column: the answer, the spent and linked row, the new row with its expiry, and the sweep |
| Sessions.SessionsService.Revoke | optioniaWooCommerceBackend/src/auth/sessions.service.ts:196-209 | Logout marks every unrevoked row of the presented token's family at its time and touches no other; an unknown token changes nothing |
| TextGeometry.WrapSegment | shared/design/text-geometry.ts:200-212 | The inner loop cuts a segment into full lines of the greedy capacity |
| TextGeometry.WrapTextLines | shared/design/text-geometry.ts:186-215 | The nested loops return the wrapped lines of all newline-separated segments, in order |
| TextGeometry.SplitLinesLosesNothing | shared/design/text-geometry.ts:195-199 | Splitting at newlines loses nothing |
| TextGeometry.MeasuredLength | shared/design/text-geometry.ts:152-173 | A run of n code points measures n glyphs at the measured advance, 0.62 of the size without one, and n - 1 letter spaces; nothing measures as one blank |
| TextGeometry.WrapIsGreedy | shared/design/text-geometry.ts:186-215 | Told by its lines alone: they join to the segment, every beginning of two or more code points of a line fits, and no line but the last has room for one more |
| TextGeometry.OneLineExactly | shared/design/text-geometry.ts:186-215 | Text without newlines stays on one line if and only if it has one code point at most, or its first two and all of it fit |
| TextGeometry.SegmentLinesSound | shared/design/text-geometry.ts:186-214 | The lines of a segment join back to it, each line of two or more code points is within the limit, and there are ceil(n / K) of them |
| TextGeometry.GreedyMinimalExactly | shared/design/text-geometry.ts:200-212 | No split into fitting lines has fewer lines than the greedy one, for every segment, if and only if each code point lengthens the run or two already fit |
| TextGeometry.FitsBox | shared/design/text-geometry.ts:249-251 | The loop's test is whether the lines wrapped at that size and proportional spacing, at 1.25 of it each, are no taller than the box |
| TextGeometry.FitTextToBox | shared/design/text-geometry.ts:235-267 | The bisection loop returns the specified fit; without a box or a size, the text as it was |
| TextGeometry.KeepsItsSizeExactly | shared/design/text-geometry.ts:235-253 | Text without newlines in a box too low for two lines keeps its size and spacing if and only if it stays on one line and 1.25 of its size is no more than the height |
| TextGeometry.WholeRunIsNotEnough | shared/design/text-geometry.ts:200-253 | With spacing more negative than the advance a run can fit whole and still be broken and shrunk |
| TextGeometry.FitIsNearOptimal | shared/design/text-geometry.ts:245-267 | The maximum when it fits, the floor when even that does not; otherwise the result fits and no size from (max - floor) / 2^24 above it upward does; letter spacing shrinks alike |
| TextGeometry.LimitScalesExactly | shared/design/text-geometry.ts:194 | The one-pixel width limit scales with the canvas exactly when the width is at least one pixel in both |
| TextGeometry.FitIsScaleFree | shared/design/text-geometry.ts:227-267 | Enlarging font, spacing and box by k gives exactly k times the fitted size and spacing, through all 24 halvings, and the same line breaks |
| ArcGeometry.SolvedRadiusIsLargest | shared/design/arc-geometry.ts:93-137 | A ring with unclamped inner edge keeps its glyph annulus inside the box if and only if its radius is at most the solved one, for arcs under and over half a circle |
| ArcGeometry.SweepExactly | shared/design/arc-geometry.ts:73-75 | A curve sweeps its hundredth part of a full turn, between a ten-thousandth and all of it |
| ArcGeometry.UnsavedBox | shared/design/arc-geometry.ts:128-130 | A box without a height is as high as wide, and one without a width as wide as the font |
| ArcGeometry.DrawnInside | shared/design/arc-geometry.ts:154-200 | Every point of the glyph annulus, from 0.22 below to 0.8 above the ring across the swept angle, is inside the arc's own box, for an open arc or a full turn |
| ArcGeometry.ApexTouches | shared/design/arc-geometry.ts:165-172 | The tops of an arch's glyphs touch y = 0, the bottoms of a valley's touch its height |
| ArcGeometry.EndsTouch | shared/design/arc-geometry.ts:165-172 | The ends of the run touch the opposite edge |
| ArcGeometry.SidesTouch | shared/design/arc-geometry.ts:165-170 | Both sides are touched |
| ArcGeometry.NearlyClosedOvershoots | shared/design/arc-geometry.ts:165-182 | A ring closed before its full turn, from 99.9 to under 100, is drawn outside its box |
| ArcGeometry.CurvedTextInBox | shared/design/arc-geometry.ts:118-168 | When the solved radius is at least one, all that is drawn is inside the given box, also after the font shrinks, in all four branch combinations |
| ArcGeometry.SettledRunFitsRing | shared/design/arc-geometry.ts:218-246 | The ring has the solved radius or one pixel; the settled run plus the full-circle seam is never longer than the swept path, is unchanged when it already fitted and exactly the path when it was shrunk |
| ArcGeometry.PathEndsOnRing | shared/design/arc-geometry.ts:154-200 | The path runs left to right between the ends of the swept angle, or round from the far side of a closed ring, on the ring and among what is drawn; an arch's ends lie below its apex, a valley's above its lowest point |
| LayerGeometry.ClampInside | shared/design/layer-geometry.ts:58-64 | A clamped centre keeps its box inside the span, or covering it when larger, and is not moved when it already does |
| LayerGeometry.CoveringCovers | shared/design/layer-geometry.ts:152-160 | A covering image reaches every edge, touches two, and keeps its aspect |
| LayerGeometry.FittingFits | shared/design/layer-geometry.ts:162-172 | A fitted image is inside its canvas at the largest size, and keeps its aspect |
| LayerGeometry.ShapeKeptExactly | shared/design/layer-geometry.ts:77-95 | A stored shape is kept unless it is a square without a usable crop or a mask without its file |
| LayerGeometry.LayerRectScales | shared/design/layer-geometry.ts:227-379 | A layer's rectangle scales with its canvas across the three geometries and five styles |
| LayerGeometry.FrameImageRectScales | shared/design/layer-geometry.ts:127-209 | The image inside a frame scales with the frame, for every crop style |
| LayerGeometry.LayerStyleHolds | shared/design/layer-geometry.ts:227-385 | In each of the three geometries every style keeps its promise: cover reaches all edges, fit stays inside, fullw and fullh span their axis at the stored place, free sits where it was put; cover is centred, fit is nearest to the stored centre, the aspect is kept, and only free rotates, by the stored angle |
| LayerGeometry.CropStyleHolds | shared/design/layer-geometry.ts:127-209 | The same promises for the image inside its frame; without a crop it covers the frame |
| Letterboxes.LetterboxIsLargest | shared/design/letterbox.ts:52-105 | Outside the tolerance the letterbox is inside the target, centred, of the authored aspect, and the largest such box |
| Letterboxes.FillsExactly | shared/design/letterbox.ts:52-90 | The whole target is filled if and only if a side is missing or not positive or the aspects differ by less than 1e-9 |
| Letterboxes.LetterboxScales | shared/design/letterbox.ts:52-105 | The letterbox of a scaled target is the scaled letterbox, tolerance branch included |
| Scene.ResolvedAsDesigned | shared/design/text-geometry.ts:120-150 | A text node draws the typed value, or else the stored text, in the stored font, style, alignment and colour, at the stored fractions of the canvas with their defaults, its curve kept within -100 and 100 |
| Scene.TextScales | shared/design/text-geometry.ts:124-150 | A resolved text node scales with its canvas; angle, curve and flags do not |
| Scene.SceneDrawsVisibleLayers | shared/design/design-scene.ts:170-229 | Choice groups in order, each with exactly its visible layers in order, on their rectangle or behind a frame that is it, with their opacities and inner rotation; then one always-visible group per text option with the one text it designs; and the letterbox of the canvas |
| Scene.BuildSceneScales | shared/design/design-scene.ts:145-230 | Building at k times the canvas gives the scene with every length times k and every angle, opacity, shape and curve unchanged |
| Scene.FlatTextInBox | shared/design/design-scene.ts:297-333 | The drawn block touches the edge or centre its alignment names, has lines of 1.25 of the font, and is inside its fixed box if and only if the text fits at a twenty-fifth of its size |
| Scene.FlatLinesBetweenSides | shared/design/design-scene.ts:313-333 | A drawn line of two or more code points lies between the sides of its box at every alignment; a shorter one does if and only if a code point is no wider than the box |
| Scene.FlatLayoutScales | shared/design/design-scene.ts:297-333 | A scaled text node is laid out with the same lines at scaled positions |
| Scene.CurvedBoxPlaced | shared/design/arc-geometry.ts:264-308 | The arc's box is centred across its fixed box and at its top, middle or bottom; a legacy one is where it was put unless it must be moved onto the canvas |
| Scene.CurvedNodeInBox | shared/design/arc-geometry.ts:154-308 | Every drawn point of a curved node with a fixed box is inside that box at every alignment; of a legacy one no larger than the canvas, on the canvas; a ring closed before its full turn excepted |
| SvgEmitter.CollectDefinitions | shared/design/design-scene.ts:390-410 | The definitions loop emits one definition per framed image that has something to clip with, in order |
| SvgEmitter.DrawGroup | shared/design/design-scene.ts:420-463 | A group's images and texts are drawn in order, each framed image behind its reference |
| SvgEmitter.DrawBody | shared/design/design-scene.ts:420-464 | The body loop draws every group |
| SvgEmitter.SceneToSvg | shared/design/design-scene.ts:373-468 | The emitted parts are the head, the definitions when there are any, the background and the body |
| SvgEmitter.ReferencesMatchDefinitions | shared/design/design-scene.ts:390-448 | The references of the body loop are, one for one and of the same kind, the definitions of the defs loop |
| SvgEmitter.DefinitionsDescribeTheirImages | shared/design/design-scene.ts:390-448 | The r-th definition is the shape or the mask of the r-th image drawn behind a reference, at that image's own frame |
| SvgEmitter.GroupDrawnWhole | shared/design/design-scene.ts:420-463 | A group is opened with its key and visibility, every image and text is drawn once in order, an image is behind a reference exactly when it has a frame and something to clip with, and only a curved text has a path |
| SvgEmitter.FrameIdsDistinct | shared/design/layer-geometry.ts:113-115 | All frame ids of a scene differ, colons stripped from the prefix or not |
| SvgEmitter.TextPathsDistinct | shared/design/design-scene.ts:284-291 | No two curved texts of a scene share a path id |
| SvgEmitter.FrameAndTextIdsDiffer | shared/design/design-scene.ts:284 | A frame's id is never a text path's id, also between two scenes of one page |
| SvgEmitter.IdsAcrossScenes | shared/design/layer-geometry.ts:113-115 | Two scenes share a text path id only if their prefixes are equal, and frame ids if and only if the prefixes agree once their colons are removed |
| SvgEmitter.StripsOnlyColons | shared/design/layer-geometry.ts:113-115 | A colon is dropped from a prefix and nothing else is |
| SvgEmitter.EachReferenceNamesOneDefinition | shared/design/design-scene.ts:390-448 | Each reference names exactly one definition of the scene |
| SvgEmitter.EscAttrIsOnePass | shared/design/design-scene.ts:233-239 | The four replacements in sequence equal one pass over the text |
| SvgEmitter.EscAttrRoundTrip | shared/design/design-scene.ts:233-239 | A decoder gives the value back, and no quote or angle bracket is left raw |
| RetryQueue.Worker.Claim | optioniaWooCommerceBackend/src/billing/billing-event-retry.service.ts:80-107 | The claiming transaction takes the rows neither processed nor dead and older than the cutoff, oldest first and at most a batch, and counts an attempt on each and no other |
| RetryQueue.Worker.Settle | optioniaWooCommerceBackend/src/billing/billing-event-retry.service.ts:139-173 | A success or a failure writes exactly its columns; the row is dead once its attempts reach the limit |
| RetryQueue.Worker.RunPass | optioniaWooCommerceBackend/src/design/render-worker.service.ts:141-265 | One pass works each such row once and leaves every other row as it was; the three counts are the rows taken, finished and given up |
| RetryQueue.PassByColumns | optioniaWooCommerceBackend/src/billing/billing-event-retry.service.ts:80-173 | A pass, column by column: the rows worked are those neither processed nor dead, older than the cutoff, with fewer than a batch of such rows before them; every other row is as it was |
| RetryQueue.BillingPass | optioniaWooCommerceBackend/src/billing/billing-event-retry.service.ts:15-22 | For billing events: five attempts, fifty rows, none younger than a minute |
| RetryQueue.RenderPass | optioniaWooCommerceBackend/src/design/render-worker.service.ts:21-42 | For render jobs: three attempts, ten rows, none younger than five seconds, a day to collect a file |
| RetryQueue.SettledForGood | optioniaWooCommerceBackend/src/billing/billing-event-retry.service.ts:84-86 | A settled row is untouched by every later pass of any run |
| RetryQueue.SettledInBoundedTime | optioniaWooCommerceBackend/src/billing/billing-event-retry.service.ts:80-196 | After `limit` passes per waiting batch every one of the first n rows is processed or dead, whatever the handlers do and whatever arrives meanwhile |
| RetryQueue.BoundIsReached | optioniaWooCommerceBackend/src/billing/billing-event-retry.service.ts:167-172 | The bound is exact: with handlers that always fail, one pass fewer leaves a row unsettled |
| RetryQueue.BillingEventsSettle | optioniaWooCommerceBackend/src/billing/billing-event-retry.service.ts:15-22 | Five passes for every fifty billing events older than a minute |
| RetryQueue.RenderJobsSettle | optioniaWooCommerceBackend/src/design/render-worker.service.ts:21-33 | Three passes for every ten render jobs older than five seconds |
| Webhook.InvKept | optioniaWooCommerceBackend/src/billing/billing-webhook.service.ts:94-195 | Every statement of every delivery and retry pass, a failing handler or a failing mark, and every crash, keeps one row per event and a completed handler run behind every processed row; no processed row is ever unset |
| Webhook.StepWrites | optioniaWooCommerceBackend/src/billing/billing-webhook.service.ts:94-195 | Every write: a new row is fresh at its time, keys and creation times are never rewritten, a delivery touches no attempt or death, and a claim takes at most fifty waiting rows older than its cutoff |
| Webhook.SettlingWrites | optioniaWooCommerceBackend/src/billing/billing-event-retry.service.ts:125-173 | A pass marks or fails exactly the row of its claim: attempts of the claim, and dead at five or alive again below |
| Webhook.NoLostWebhook | optioniaWooCommerceBackend/src/billing/billing-webhook.service.ts:94-195 | A delivery answers `processed` or `duplicate` only when its event's one row is processed and a handler run for it completed; one that is rethrown leaves the row behind |
| Webhook.RunsAgainExactly | optioniaWooCommerceBackend/src/billing/billing-webhook.service.ts:140-152 | For a processed event, n more handler runs are possible if and only if n threads that read it as unfinished have still to run it; any further run if and only if there is such a thread |
| Webhook.AppliedTwiceExactly | optioniaWooCommerceBackend/src/billing/billing-webhook.service.ts:144-189 | At the statement that reads an event as unfinished: two successful runs can come of it, with no later read, if and only if one is already logged or another thread has still to run the handler |
| Webhook.HandlerRunsTwice | optioniaWooCommerceBackend/src/billing/billing-webhook.service.ts:144-173 | Two deliveries at once both run the handler of one event |
| Webhook.StaysDeadExactly | optioniaWooCommerceBackend/src/billing/billing-event-retry.service.ts:135-172 | A dead-lettered row stays dead in every later run, overlapping passes included, if and only if no pass has still to settle an earlier attempt on it; its death is never rewritten if and only if none has still to settle any |
| Webhook.DeadForGood | optioniaWooCommerceBackend/src/billing/billing-event-retry.service.ts:158-172 | From the empty table, with one pass at a time up to its death, a dead-lettered row has at least five attempts and stays as it died in every later run |
| Webhook.DeadRowRevived | optioniaWooCommerceBackend/src/billing/billing-event-retry.service.ts:135-172 | Overlapping passes bring a dead-lettered row back with fewer attempts |
| Webhook.RecordedIsTheDelivery | optioniaWooCommerceBackend/src/billing/billing-webhook.service.ts:94-195 | An uninterrupted delivery is the protocol's delivery run to its end |
| Webhook.RecordedByColumns | optioniaWooCommerceBackend/src/billing/billing-webhook.service.ts:94-195 | What one delivery answers and writes, column by column, whether or not the event was stored |
| Webhook.BillingWebhookService.Record | optioniaWooCommerceBackend/src/billing/billing-webhook.service.ts:94-195 | One delivery, column by column: the answer, the event's one row, and nothing else |
| Payloads.ReadersExactly | optioniaWooCommerceBackend/src/billing/invoice.mapper.ts:90-101 | Text, whole minor units, ids (plain or expanded) and times are read from exactly the values that carry them |
| InvoiceMapper.MapsExactly | optioniaWooCommerceBackend/src/billing/invoice.mapper.ts:113-150 | A payload is mapped if and only if its id, one of five statuses, a three-letter currency, whole amounts and taxes can be read and they balance |
| InvoiceMapper.RefusedForTheFirst | optioniaWooCommerceBackend/src/billing/invoice.mapper.ts:113-150 | A refusal names the first of the checks that fails |
| InvoiceMapper.MappedByKey | optioniaWooCommerceBackend/src/billing/invoice.mapper.ts:113-177 | Each column is what its own key of the payload says |
| InvoiceMapper.SumTaxes | optioniaWooCommerceBackend/src/billing/invoice.mapper.ts:207-231 | No list is zero tax; a list is the sum of its entries; anything unreadable in it is a refusal, never skipped |
| InvoiceMapper.MappedBalances | optioniaWooCommerceBackend/src/billing/invoice.mapper.ts:134-176 | A mapped invoice balances, states the payload's own total and the sum of its own tax entries, and only a paid one has a payment time |
| InvoiceMapper.OnlyTheBalancedTotal | optioniaWooCommerceBackend/src/billing/invoice.mapper.ts:113-177 | Any other stated total for the same lines and taxes is refused, and the balanced one maps alike |
| InvoiceMapper.TaxesAdd | optioniaWooCommerceBackend/src/billing/invoice.mapper.ts:216-230 | Tax entries add up in any grouping |
| Lifecycle.IgnoredChangesNothing | optioniaWooCommerceBackend/src/billing/subscription-lifecycle.service.ts:72-120 | An event that is not acted on, an unmapped status included, changes nothing; no event touches a subscription it is not about |
| Lifecycle.GraceClock | optioniaWooCommerceBackend/src/billing/subscription-lifecycle.service.ts:263-265 | Over every history of events: a grace date stands exactly while a lapse is open and is its first failed payment plus fourteen days; one notice per lapse; an active or trialing subscription has none |
| Lifecycle.MarkDecides | optioniaWooCommerceBackend/src/billing/subscription-lifecycle.service.ts:350-403 | What one event does to one subscription's grace date, status and notices |
| Lifecycle.PlanFollowsPrice | optioniaWooCommerceBackend/src/billing/subscription-lifecycle.service.ts:577-611 | An update moves the plan to the billed price and to nothing else; storefronts are told exactly when it moved |
| Lifecycle.IdentityIsFirstOffered | optioniaWooCommerceBackend/src/billing/subscription-lifecycle.service.ts:508-547 | Over any history of events each field of a tenant's billing identity is what it was, or failing that what the first completed session of the tenant to carry one said; no other event touches it |
| Lifecycle.InvoicesBalance | optioniaWooCommerceBackend/src/billing/subscription-lifecycle.service.ts:482-506 | Over any history: one row per provider invoice, each balanced, none dropped or moved to another tenant |
| Lifecycle.StoreTwice | optioniaWooCommerceBackend/src/billing/subscription-lifecycle.service.ts:487-495 | Storing an invoice again changes nothing, whomever it is matched to |
| Lifecycle.ReplayStoresNothing | optioniaWooCommerceBackend/src/billing/subscription-lifecycle.service.ts:324-338 | A redelivered paid invoice leaves the invoices as they were |
| LifecycleEffects.CheckoutByColumns | optioniaWooCommerceBackend/src/billing/subscription-lifecycle.service.ts:130-172 | A completed checkout: the named tenant's subscription takes the session's ids, and nothing else of it changes |
| LifecycleEffects.StatusRead | optioniaWooCommerceBackend/src/billing/subscription-lifecycle.service.ts:695-715 | Which provider words mean which status |
| LifecycleEffects.SubscriptionByColumns | optioniaWooCommerceBackend/src/billing/subscription-lifecycle.service.ts:182-284 | A created, updated or deleted subscription, found by its own id before its customer's: status, dates of the first item, plan, grace date and invalidation, column by column |
| LifecycleEffects.InvoicePaidByColumns | optioniaWooCommerceBackend/src/billing/subscription-lifecycle.service.ts:292-341 | A paid invoice under either name: the subscription active without a grace date, and the invoice's one row |
| LifecycleEffects.PaymentFailedByColumns | optioniaWooCommerceBackend/src/billing/subscription-lifecycle.service.ts:350-403 | A failed payment: past due, the grace date fourteen days on and one notice at the first failure only |
| LifecycleEffects.TrialByColumns | optioniaWooCommerceBackend/src/billing/subscription-lifecycle.service.ts:418-449 | A trial notice: the provider's date, and no write |
| LifecycleEffects.UnmatchedIgnored | optioniaWooCommerceBackend/src/billing/subscription-lifecycle.service.ts:72-120 | An event about no known subscription is answered so and changes nothing |
| LifecycleEffects.UnknownName | optioniaWooCommerceBackend/src/billing/subscription-lifecycle.service.ts:113-115 | Any other event name is ignored |
| LifecycleEffects.OfferedByKey | optioniaWooCommerceBackend/src/billing/subscription-lifecycle.service.ts:527-567 | Which keys of a session the country, the currency and the first usable tax id come from |
| Lifecycle.SubscriptionLifecycle.Apply | optioniaWooCommerceBackend/src/billing/subscription-lifecycle.service.ts:72-120 | Dispatching an event to its handler does to the store what the specification says |
| Lifecycle.SubscriptionLifecycle.OnCheckoutCompleted | optioniaWooCommerceBackend/src/billing/subscription-lifecycle.service.ts:130-172 | A completed checkout links the tenant's subscription to its provider ids, records its billing identity and leaves its status alone |
| Lifecycle.SubscriptionLifecycle.RecordBillingIdentity | optioniaWooCommerceBackend/src/billing/subscription-lifecycle.service.ts:517-547 | Country, currency and tax number are filled from the session where they are blank |
| Lifecycle.SubscriptionLifecycle.ReadTaxId | optioniaWooCommerceBackend/src/billing/subscription-lifecycle.service.ts:549-567 | The first tax id that is not blank and fits its column |
| Lifecycle.SubscriptionLifecycle.OnSubscriptionChanged | optioniaWooCommerceBackend/src/billing/subscription-lifecycle.service.ts:182-284 | Status, period, cancellation and plan from the payload; recovery clears the grace date |
| Lifecycle.SubscriptionLifecycle.OnInvoicePaid | optioniaWooCommerceBackend/src/billing/subscription-lifecycle.service.ts:292-341 | The invoice is stored and the subscription activated together, or neither |
| Lifecycle.SubscriptionLifecycle.OnPaymentFailed | optioniaWooCommerceBackend/src/billing/subscription-lifecycle.service.ts:350-403 | The first failure of a lapse sets the grace date and notifies; later ones only mark it past due |
| Lifecycle.SubscriptionLifecycle.OnTrialWillEnd | optioniaWooCommerceBackend/src/billing/subscription-lifecycle.service.ts:418-449 | A trial notice carries the provider's date and writes no subscription |
| Lifecycle.SubscriptionLifecycle.AdoptPlanFromPrice | optioniaWooCommerceBackend/src/billing/subscription-lifecycle.service.ts:577-611 | An unknown price leaves the plan alone; a known one moves it, and says whether it moved |
| Lifecycle.SubscriptionLifecycle.Upsert | optioniaWooCommerceBackend/src/billing/subscription-lifecycle.service.ts:482-506 | Insert, or update the columns of the row that has the invoice id |
| TaxReport.CollectedByColumns | optioniaWooCommerceBackend/src/billing/tax-report.service.ts:42-80 | A group is reported if and only if a paid invoice issued in [from, to) has its country and currency; an unreadable or empty period is refused |
| TaxReport.TallyByColumns | optioniaWooCommerceBackend/src/billing/tax-report.service.ts:61-80 | A reported group counts those invoices and sums their own net, tax and gross |
| TaxReport.TallyCounts | optioniaWooCommerceBackend/src/billing/tax-report.service.ts:69-78 | A country and currency is reported exactly when some paid invoice of the period belongs to it |
| TaxReport.ReportedRowsBalance | optioniaWooCommerceBackend/src/billing/tax-report.service.ts:61-100 | After any history of events every reported row has gross equal to net plus tax, and counts at least one invoice |
| TaxReport.ReplayReportsNothing | optioniaWooCommerceBackend/src/billing/tax-report.service.ts:61-80 | A redelivered paid invoice does not change any report |
| TaxReport.ConsecutivePeriodsAdd | optioniaWooCommerceBackend/src/billing/tax-report.service.ts:56-60 | The reports of [a, b) and [b, c), added group by group, are the report of [a, c) |
| Csv.ReadCell | optioniaWooCommerceBackend/src/analytics/analytics.service.ts:1213 | A printed cell is read back as it was before quoting |
| Csv.ReadPrinted | optioniaWooCommerceBackend/src/analytics/analytics.service.ts:1216-1220 | What a reader of section 2 of RFC 4180 makes of any printed table whose rows have cells |
| Csv.RoundTrip | optioniaWooCommerceBackend/src/analytics/analytics.service.ts:1168-1221 | The table comes back, each cell as it was or behind one tab, if and only if every row has a cell and the last row is not a single empty one |
| Csv.CellsReadBack | optioniaWooCommerceBackend/src/analytics/analytics.service.ts:1173-1214 | A cell gains a tab exactly when it begins with = + - @ tab or CR outside numeric body columns; none of those reads back starting with = + - or @ |
| Csv.GuardIsReversible | optioniaWooCommerceBackend/src/analytics/analytics.service.ts:1200-1202 | Taking one tab off a guarded column gives every original cell back |
| ConfigEtags.EtagInjective | optioniaWooCommerceBackend/src/config-delivery/config-etag.ts:32-34 | A validator names one store and one version |
| ConfigEtags.MatchesExactly | optioniaWooCommerceBackend/src/config-delivery/config-etag.ts:49-61 | The weak comparison of section 8.8.3.2 of RFC 9110: a list of validators, each with or without `W/` and any white space around it, matches if and only if it names this store at this version; no header never matches |
| ConfigEtags.StarMatches | optioniaWooCommerceBackend/src/config-delivery/config-etag.ts:60 | `*`, with or without white space around it, matches any version |
| ConfigDelivery.InvKept | optioniaWooCommerceBackend/src/config-delivery/config-delivery.service.ts:43-67 | Publishes, requests and the builder's separate reads in any order keep every cached and travelling document under the validator of a published version no later than the store's, and equal to what the store holds while it is at that version |
| ConfigDelivery.StoreWrites | optioniaWooCommerceBackend/src/common/config-version.service.ts:54-87 | What each action makes of a store: a publish advances its version by one with the content it brings, and no other store is touched |
| ConfigDelivery.GoneStoreAnswered | optioniaWooCommerceBackend/src/config-delivery/config-delivery.service.ts:43-67 | A request is answered that the store is gone exactly when it is, by whichever statement looks for its row |
| ConfigDelivery.CachesAgree | optioniaWooCommerceBackend/src/config-delivery/config-delivery.service.ts:53-66 | Whatever publishes land between the reads, a cached document bears a version its store published, never a later one than the store's, and is the store's document whenever the versions are equal |
| ConfigDelivery.AssembledAlike | optioniaWooCommerceBackend/src/option-sets/serialization/config-document.ts:143-199 | The document assembled from three reads is the published one if and only if the sets whose snapshots were found, their snapshots and their assignments are the published ones |
| ConfigDelivery.GenuineExactly | optioniaWooCommerceBackend/src/option-sets/serialization/config-document.ts:66-210 | A document bears the version its store row had when read, and is what was published at that version if and only if each later read found what that version had; in particular when the store is still at it |
| ConfigDelivery.VersionCountsPublishes | optioniaWooCommerceBackend/src/common/config-version.service.ts:54-87 | A store is still at the version read if and only if no publish of it has landed since: its version counts them |
| ConfigDelivery.AnyGapTears | optioniaWooCommerceBackend/src/option-sets/serialization/config-document.ts:66-160 | Between any two of the builder's reads some publish makes the document differ from the version it bears |
| ConfigDelivery.TornDocumentCached | optioniaWooCommerceBackend/src/option-sets/serialization/config-document.ts:66-210 | A run in which a client caches, under version 0, what its store published at version 1 |
| ConfigDelivery.NotModifiedMeansCurrent | optioniaWooCommerceBackend/src/config-delivery/config-delivery.service.ts:43-49 | A request is answered `not modified` if and only if the client's copy is the document current when the version was read |
| ConfigDelivery.EveryVersionPushedOnce | optioniaWooCommerceBackend/src/common/config-version.service.ts:54-87 | A store with a push address is sent each of its versions once, in order, over any run |
| ConfigDelivery.ConfigVersionService.Bump | optioniaWooCommerceBackend/src/common/config-version.service.ts:54-87 | The version advances by one with its push, or a missing store is refused and nothing changes |
| ConfigDelivery.ConfigVersionService.EnqueuePush | optioniaWooCommerceBackend/src/common/config-version.service.ts:124-144 | A push is queued exactly when there is an address to send it to |
| ConfigDelivery.ConfigVersionService.BumpIfVisible | optioniaWooCommerceBackend/src/common/config-version.service.ts:163-173 | A change to a draft moves nothing |
| Container.ResolvableIf | optioniaWooCommercePlugin/src/Container.php:70-104 | A service not built yet can be built exactly when it is registered, its factory returns an object and everything it asks for can be built |
| Container.NoWayThrough | optioniaWooCommercePlugin/src/Container.php:80-87 | A service under construction that is asked for again cannot be built at any depth |
| Container.BlamedIsUnresolvable | optioniaWooCommercePlugin/src/Container.php:75-100 | What an exception blames, a missing, circular or non-object service that the id leads to, rules out every construction |
| Container.ResolvableAlike | optioniaWooCommercePlugin/src/Container.php:71-73 | Building some services first does not change which can be built |
| Container.Container.Set | optioniaWooCommercePlugin/src/Container.php:59-61 | Registering replaces one factory |
| Container.Container.Has | optioniaWooCommercePlugin/src/Container.php:112-114 | Registered or already built |
| Container.Container.Get | optioniaWooCommercePlugin/src/Container.php:70-105 | Terminates; succeeds if and only if the service can be built; one shared instance per id, made of the shared instances its factory asked for; a failure names its cause; the stack is as before, or empty after a cycle |
| Container.Container.RunFactory | optioniaWooCommercePlugin/src/Container.php:91-95 | A factory's calls in order, up to the first that throws |
| AuditPages.CursorRoundTrip | optioniaWooCommerceBackend/src/audit/audit-query.service.ts:125-148 | A cursor decodes to the id it was made from |
| AuditPages.MalformedRefused | optioniaWooCommerceBackend/src/audit/audit-query.service.ts:136-148 | A cursor that is not one to twenty digits is refused, and only such a one |
| AuditPages.PageByColumns | optioniaWooCommerceBackend/src/audit/audit-query.service.ts:73-121 | A page holds the newest rows of the tenant that meet every filter and are older than the cursor, at most a limit of them; it says there are more exactly when one was left out; its cursor is its oldest id |
| AuditPages.List | optioniaWooCommerceBackend/src/audit/audit-query.service.ts:73-121 | Building the query clause by clause and reading one row more gives the specified page |
| AuditPages.NewestDescends | optioniaWooCommerceBackend/src/audit/audit-query.service.ts:109-111 | A query returns exactly the matching rows, in strictly descending id order |
| AuditPages.NextPage | optioniaWooCommerceBackend/src/audit/audit-query.service.ts:96-99 | The page after a full one continues where it stopped, whatever was written meanwhile |
| AuditPages.PaginationExact | optioniaWooCommerceBackend/src/audit/audit-query.service.ts:73-121 | Following the cursors while rows are written returns the rows that matched at the first page, newest first, each once and no later one; the end is reached exactly when the pages have room for them |
| AuditPages.CursorWithMore | optioniaWooCommerceBackend/src/audit/audit-query.service.ts:112-119 | A page says there is more without a cursor to it exactly when the limit is zero and something was found |

## Left out

- Floating-point rounding: all geometry is over reals, so the 1e-9 tolerance of the letterbox is exact and money sums do not lose precision past 2^53.
- `NaN` and infinities in stored numbers are absent values; a canvas dimension of zero, and a frame recorded with no width, which the code turns into divisions by zero.
- SVG markup as text: parts and references are values; path strings, number formatting and font attributes are not rendered. Only the ids and the escaping are strings.
- Cursor encoding: a cursor is the text it decodes to; base64url itself, and how lenient its decoder is, are not modelled.
- Sessions.ReuseRevokesFamily: stated for families that no logout or password change sweeps during the run, because it fails when one does; `Sessions.LogoutEndsExactly` says what a sweep leaves, and `Sessions.RecordedReuseRevokesFamily` holds without that condition.
- RetryQueue.SettledInBoundedTime: stated for one worker whose passes run to completion over rows with distinct creation times, because nothing else keeps a claimed row from being taken again.
- Two retry workers at once are modelled as interleaved passes in `Webhook`, over any set of rows a claim may lock.
- RetryQueue.Worker.RunPass: a success reads the clock once, where the render worker reads it twice for `processedAt` and `collectBy`; the log lines and font inventory are not modelled.
- The webhook's stored payload and its wrapping when it is not an object: the handler is arbitrary, so what it is given does not matter. Signature checking comes before the model.
- The reconciler, which repairs `status` without touching the grace date, and sign-up, which creates subscriptions.
- Lifecycle.SubscriptionLifecycle.OnInvoicePaid: the transaction is one atomic step; a database failure inside it is not modelled.
- `String(value)` in refusal reasons, upper-casing beyond ASCII letters, dates outside the range of `Date`, and text lengths in UTF-16 units: a code point counts as one.
- The order of the tax report's rows: a report is a map from country and currency to totals.
- ConfigDelivery.EveryVersionPushedOnce: a store's push address does not change during a run, and a store id is never used again after removal.
- The `plan` part of a configuration document and its `generated_at` stamp: neither is tied to the version, and the builder reads the plan last. A document's sets, snapshots and assignments are modelled; what a snapshot holds is opaque text.
- ConfigDelivery.GenuineExactly: compares documents by their option sets; a change of content that bypasses the version is not a step of the model.
- Scene.FlatLinesBetweenSides: for boxes at least one pixel wide, because the wrap's limit is never below one pixel, and lines whose letter spacing does not fold them back on themselves.
- In `RetryQueue` a success whose write fails counts as a failure of the attempt, as the catch block has it; `Webhook` has it as a step of its own.
- A factory that catches the container's exception and goes on, and factories that register others while running.
- Expiry and clock arithmetic of tokens beyond comparing with the present, hashing and signing: hashes are injective opaque values.
- Controllers, guards, mail, the payment provider's adapter, rasterising, the SQL analytics and the WordPress hooks: wiring and single branches.
