# Poetics Studio site: a verified model of its behavioural core

The Poetics Studio portfolio site is a React single-page application with two Vercel serverless functions. Most of it is presentational. This project models the parts that have behaviour and proves properties about them:

- **The Garden** (`Garden`, `GardenPhysics`). This is the platformer prototype. A `Session` class holds the state the animation effect closes over: the ball, jump charges, the jump edge detector, the grounded flag, flowers, seeds, the palette index, ledges, the frame counter, the key map, the touch buttons and the playing flag. Its methods are the input handlers and the loop body. The loop body is split into phase methods that update fields in place. `Session.Step` is proved to agree with the pure frame function `GardenPhysics.StepSpec` and to keep the between-frames invariant `GardenPhysics.Valid`.
- **The Iconoclast** (`Iconoclast`). This is the text prototype. A `Prototype` class holds the input, the output, the loading flag and the count of pending requests. The asynchronous submit handler is split at its `await`. `Deconstruct` sends nothing for blank input and otherwise sends the trimmed input. `Settle` shows the reply text, a fallback or a fixed error line once one reply arrives. The Enter key submits even while a request is loading, so requests can overlap.
- **The attention grid on the Experiments page** (`AttentionGrid`). It covers the lattice counts, cell centres, the piecewise-linear distance-to-scale transform, the drawn rectangles, the parked cursor and the crosshair test. A `Grid` class carries the handlers' state. Its `Frame` method's nested loops are proved to produce exactly the specified cell sequence.
- **The two API handlers** (`AnalyzeArchitecture`, `Generate`, over the shared `Http`). Each is a fixed early-return chain that decides a status and a body. A `ResponseWriter` class receives the CORS headers, the status and the body.
- **Small rules**, each in its own module:
  - `Routes`: the route tables, the current page, navigation, and nav and footer visibility.
  - `Newsletter`: the footer's newsletter form, with its address pattern and status machine.
  - `Seo`: the title, defaults, meta tags and schema merge.
  - `ProjectList`: the masonry column spans and the card click.
  - `About`: the awards collapse and expand.
- **`JsCore`**. This module holds the pieces of JavaScript the code relies on:
  - truthiness;
  - `trim`, with the exact ECMAScript whitespace set;
  - `join`;
  - decimal rendering of a count in a template string.

JavaScript numbers are modelled as `real`, and the source's constants are exact rationals there. Every `Math.random()` draw is a parameter constrained to [0, 1). Square-root distance tests become squared comparisons. The trigonometric butterfly flutter is a parameter. The grid's per-cell distance is a parameter function.

## Model

| member | source | states |
|---|---|---|
| JsCore.NonEmptyStringGuard | api/generate.ts:27 | The falsy-or-not-a-string guard rejects exactly the values that are not non-empty strings. |
| JsCore.Trim | api/generate.ts:84 | The result is the infix that starts after the leading whitespace. Everything after it is whitespace. A non-empty result neither starts nor ends with whitespace. |
| JsCore.TrimEmptyIff | api/generate.ts:84 | Trimming gives the empty string exactly for all-whitespace input, in both directions. |
| JsCore.TrimUntouched | api/generate.ts:84 | A non-empty string that neither starts nor ends with whitespace is unchanged by trimming. |
| JsCore.TrimIdempotent | api/generate.ts:84 | Trimming twice equals trimming once. |
| JsCore.Join | components/Footer.tsx:55 | Joining no parts gives "". One part gives that part. Otherwise the result starts with the first part. |
| JsCore.JoinLength | components/Footer.tsx:55 | The joined length is the sum of the parts' lengths plus one separator between each pair of neighbours. |
| JsCore.NatToString | api/analyze-architecture.ts:157 | The rendering of a count is a non-empty digit string with no leading zero, except for "0" itself. |
| JsCore.NatToStringRoundTrip | api/analyze-architecture.ts:157 | Reading the decimal rendering back gives the original number. |
| Http.Field | api/generate.ts:25 | Destructuring a key that is absent from the body yields undefined. |
| Http.ErrorReply | api/generate.ts:22 | The reply has the given status and a body that is exactly the object with a single `error` member. |
| Http.ResponseWriter.constructor | api/generate.ts:3-6 | A fresh response has no headers, status 200 and no body, and has not been sent. |
| Http.ResponseWriter.SetHeader | api/generate.ts:8-14 | Only the named header changes, to the given value. Status, body and the sent flag are kept. |
| Http.ResponseWriter.Status | api/generate.ts:17 | Only the status changes. |
| Http.ResponseWriter.End | api/generate.ts:17 | The response is sent with no body. Headers and status are kept. |
| Http.ResponseWriter.SendJson | api/generate.ts:22 | The response is sent with the given JSON body. Headers and status are kept. |
| Http.WriteCors | api/generate.ts:8-14 | After the four calls the headers are the old ones overridden by the four CORS headers. Nothing else changes. |
| Http.Send | api/generate.ts:17-22 | The response is sent with the reply's status and body, and its headers are untouched. |
| AnalyzeArchitecture.Analyse | api/analyze-architecture.ts:58-170 | The `try` block succeeds exactly when the upstream replied ok with truthy text that `JSON.parse` accepts. The profile is then exactly the parsed value. |
| AnalyzeArchitecture.Forwarded | api/analyze-architecture.ts:25-39 | A payload is forwarded exactly when the request is a POST, both fields are non-empty strings and the key is set. The payload carries both fields unchanged. |
| AnalyzeArchitecture.Handle | api/analyze-architecture.ts:8-177 | The CORS headers are written on every path. The response is then sent with the status and body of the decision chain. |
| AnalyzeArchitecture.OptionsPreflight | api/analyze-architecture.ts:16-19 | OPTIONS gets 200 with an empty body, whatever the body, key and upstream. |
| AnalyzeArchitecture.OtherMethodsRefused | api/analyze-architecture.ts:10-23 | Every method other than OPTIONS and POST gets 405 "Method not allowed". This includes GET, which the Allow-Methods header advertises. |
| AnalyzeArchitecture.ValidationOrder | api/analyze-architecture.ts:25-39 | For a POST, a bad image gives 400 "Invalid image data" first. Then a bad MIME type gives 400 "Invalid mime type". Only then does a missing key give 500. |
| AnalyzeArchitecture.EmptyImageRejected | api/analyze-architecture.ts:27-29 | An empty image string gives 400 with the error "Invalid image data". |
| AnalyzeArchitecture.UpstreamOnlyAfterChecks | api/analyze-architecture.ts:25-58 | Whenever nothing is forwarded, the upstream outcome has no influence on the reply. |
| AnalyzeArchitecture.ForwardedOutcomes | api/analyze-architecture.ts:156-177 | After forwarding, the status is 200 exactly when the analysis succeeds, and the body is then the parsed profile. Every other outcome is 500 with the fixed error and a string `details`. |
| AnalyzeArchitecture.UpstreamStatusInDetails | api/analyze-architecture.ts:156-176 | A non-ok upstream reply is reported in `details` with its status in decimal. |
| AnalyzeArchitecture.MissingTextIsFailure | api/analyze-architecture.ts:160-165 | An ok reply without truthy text reports "No response from Gemini" and is never parsed. |
| AnalyzeArchitecture.Decide | api/analyze-architecture.ts:16-177 | The decision chain only ever answers 200, 400, 405 or 500. The body is empty exactly for OPTIONS. 405 goes exactly to methods other than OPTIONS and POST, and 400 only ever answers a POST. |
| Generate.Prompt | api/generate.ts:38-50 | The prompt is the fixed head, then the input verbatim, then the fixed tail, with lengths adding up. |
| Generate.Forwarded | api/generate.ts:16-50 | A prompt is sent exactly when the request is a POST with a non-empty string `input` and a key, and the prompt is built from that input. |
| Generate.SilenceIsTrimmed | api/generate.ts:82-84 | The fallback text is a fixed point of trimming. |
| Generate.ReplyText | api/generate.ts:82-84 | Falsy text gives the fallback. A non-empty string gives its trim. The reply fails exactly when the text is truthy but not a string, so `trim` is missing. |
| Generate.Handle | api/generate.ts:8-88 | The CORS headers are written on every path. The response is then sent with the decided status and body. |
| Generate.Decide | api/generate.ts:16-88 | The decision chain only ever answers 200, 400, 405 or 500. The body is empty exactly for OPTIONS. 405 goes exactly to methods other than OPTIONS and POST. 400 goes exactly to a POST whose `input` is not a non-empty string. |
| Generate.MethodGate | api/generate.ts:16-23 | OPTIONS gives 200 with no body. Any other non-POST method gives 405. |
| Generate.ValidationOrder | api/generate.ts:25-35 | For a POST, a bad `input` gives 400 before the key is looked at. The missing-key 500 comes only after a valid input. |
| Generate.PromptCarriesInput | api/generate.ts:38-50 | The forwarded prompt contains the user's input verbatim at some position. |
| Generate.Answer | api/generate.ts:37-88 | The `try` block on its own. Its outcomes are stated by `Generate.ForwardedOutcomes`. |
| Generate.ForwardedOutcomes | api/generate.ts:77-88 | After the checks, the reply is 200 exactly for an ok upstream reply whose text yields a string, and its `text` is that string. Every other outcome is the fixed 500 "static noise" error. |
| Generate.WhitespaceReplyIsEmptyText | api/generate.ts:82-84 | Whitespace-only upstream text is truthy, so it escapes the fallback and becomes 200 `{text: ''}`. |
| Generate.NotFoundIsNotAnError | api/generate.ts:46-84 | The model's "archive data unavailable" sentence comes back as an ordinary 200 text, intact. |
| Generate.CleanTextUnchanged | api/generate.ts:82-84 | Upstream text without surrounding whitespace is returned unchanged as `text`. |
| Iconoclast.ToJs | components/PoeticMachine.tsx:30 | A JSON string reads back as the same string, and every other JSON value as a non-string. |
| Iconoclast.Displayed | components/PoeticMachine.tsx:26-34 | The shown output is always truthy. A network failure, a non-2xx status, a bodiless reply or a JSON `null` body (whose `text` throws) shows the fixed error line. Any other 2xx reply shows its `text` when that is truthy, and "silence returned." otherwise. |
| Iconoclast.Prototype.constructor | components/PoeticMachine.tsx:6-8 | The prototype starts with empty input, no output, not loading and no request pending. |
| Iconoclast.Prototype.Type | components/PoeticMachine.tsx:50 | Typing replaces the input and nothing else. |
| Iconoclast.Prototype.ButtonDisabled | components/PoeticMachine.tsx:57 | The button is disabled while loading or while the field is empty. What that stops is stated by `Iconoclast.Prototype.Click`. |
| Iconoclast.Prototype.Deconstruct | components/PoeticMachine.tsx:10-25 | Nothing is sent exactly when the trimmed input is empty, and loading and the pending count are then untouched. Otherwise the trimmed input is posted, loading turns on, and one more request is pending, whether or not another one already is. |
| Iconoclast.Prototype.Settle | components/PoeticMachine.tsx:26-37 | A settled request shows the displayed reply and turns loading off, even while other requests are still pending. |
| Iconoclast.Prototype.KeyDown | components/PoeticMachine.tsx:40-42 | Enter submits exactly as the handler does, while loading too. Any other key sends nothing and changes nothing. |
| Iconoclast.Prototype.Click | components/PoeticMachine.tsx:55-57 | A click on the disabled button sends nothing and changes nothing. Otherwise it submits exactly as the handler does. |
| Iconoclast.BlankInputSendsNothing | components/PoeticMachine.tsx:11 | A whitespace-only field enables the button but trims to nothing, so no request is sent. |
| Iconoclast.SentRequestPassesValidation | components/PoeticMachine.tsx:11-21 | Whatever the prototype sends never fails the endpoint's 400 input check. |
| Iconoclast.EndToEndText | components/PoeticMachine.tsx:21-31 | End to end, a string reply is shown trimmed. When trimming leaves nothing, "silence returned." is shown instead. |
| Iconoclast.EndToEndFailure | components/PoeticMachine.tsx:26-34 | End to end, an upstream failure shows the fixed error line. |
| GardenPhysics.SpawnSeed | components/PoeticMachine.tsx:221-227 | A spawned seed is uncollected. Its position range is stated by `GardenPhysics.SpawnSeedBounds`. |
| GardenPhysics.SpawnSeedBounds | components/PoeticMachine.tsx:221-227 | A spawned seed is uncollected, with 30 <= x < width - 30 and 50 <= y < 0.6 height + 50. |
| GardenPhysics.GeneratePlatforms | components/PoeticMachine.tsx:188-200 | There are five ledges, all 2 px high, whose widths are 0.25, 0.3, 0.2, 0.25 and 0.15 of the canvas width. |
| GardenPhysics.PlatformsInsideCanvas | components/PoeticMachine.tsx:188-200 | There are five 2-px ledges. Each lies horizontally within the canvas and strictly between its top and bottom. |
| GardenPhysics.InitialSeeds | components/PoeticMachine.tsx:221-229 | Seed i of the initial four comes from draws 2i (x) and 2i+1 (y). |
| GardenPhysics.InitialWorldValid | components/PoeticMachine.tsx:163-185 | The initial world satisfies the between-frames invariant and starts with no jump charge. |
| GardenPhysics.Steer | components/PoeticMachine.tsx:246-247 | Only vx changes. Left alone subtracts 0.6, right alone adds 0.6, and both or neither leave vx as it was. |
| GardenPhysics.Jump | components/PoeticMachine.tsx:250-263 | A jump fires exactly on a rising edge with a charge left. It then sets vy = -14 and uses one charge, and a butterfly more than 100 past either edge returns to 100 above the ball while one on screen stays. Otherwise the ball, the charges and the butterfly are unchanged. Charges stay in [0, 2]. |
| GardenPhysics.NoChargeNoJump | components/PoeticMachine.tsx:172-174 | With no charge left, as at the start, a jump press changes nothing. |
| GardenPhysics.Integrate | components/PoeticMachine.tsx:265-268 | Gravity reaches vy before the move, so y moves by the new vy while x moves by the old vx, as in the source's statement order. What friction does is stated by `GardenPhysics.FrictionSlows`. |
| GardenPhysics.FrictionSlows | components/PoeticMachine.tsx:268 | Friction keeps the ball's horizontal direction and never speeds it up: the horizontal speed shrinks strictly unless it is zero. |
| GardenPhysics.Land | components/PoeticMachine.tsx:274-284 | A landing puts the ball exactly on the surface and sets grounded and the impact line. A slow rebound (speed below 3 gravity) snaps to rest and refills both charges. A faster one rebounds at -0.5 times vy with charges kept. |
| GardenPhysics.PlatformsUpTo | components/PoeticMachine.tsx:287-302 | The ledge pass never moves the ball horizontally. It keeps charges in [0, 2] and never clears grounded. |
| GardenPhysics.RisingBallPassesThrough | components/PoeticMachine.tsx:289-291 | A rising ball is never caught by any ledge. |
| GardenPhysics.RestIsSticky | components/PoeticMachine.tsx:291-299 | A ball at rest stays at rest through the ledge pass. |
| GardenPhysics.RefillOnlyAtRest | components/PoeticMachine.tsx:287-302 | The ledge pass changes the charge count only by a resting landing, which leaves two charges, vy = 0 and grounded. |
| GardenPhysics.Collide | components/PoeticMachine.tsx:270-302 | The collision step never moves the ball horizontally and keeps charges in [0, 2]. |
| GardenPhysics.CollideRefillsOnlyAtRest | components/PoeticMachine.tsx:270-302 | The same holds for the whole collision step, floor included. |
| GardenPhysics.FloorLanding | components/PoeticMachine.tsx:274-284 | On floor penetration the ball sits at floorY - r, is grounded, and either rebounds at -0.5 vy or rests with two charges. |
| GardenPhysics.FloorMissed | components/PoeticMachine.tsx:274 | Without penetration the floor step changes nothing. |
| GardenPhysics.NewFlower | components/PoeticMachine.tsx:306-313 | A new flower has age 0, sits at the impact point and takes the current palette colour. For valid draws its kind is in 0..4 and its scale in [0.5, 1). |
| GardenPhysics.Sprout | components/PoeticMachine.tsx:305-314 | Exactly one flower is appended when the trigger holds, and none otherwise. |
| GardenPhysics.Live | components/PoeticMachine.tsx:374 | The filter never grows the list, and every survivor is younger than 400. |
| GardenPhysics.LiveKeeps | components/PoeticMachine.tsx:374 | A flower survives the filter exactly when it was in the list and was younger than 400. |
| GardenPhysics.Aged | components/PoeticMachine.tsx:375-376 | Ageing keeps every flower in place and adds one to its age. |
| GardenPhysics.AgingBounds | components/PoeticMachine.tsx:374-376 | After filtering and ageing, every flower is between 1 and 400 frames old and keeps its looks. |
| GardenPhysics.GrowthBounds | components/PoeticMachine.tsx:378 | Growth lies in (0, 1] and is 1 from age 30 on. |
| GardenPhysics.OpacityFades | components/PoeticMachine.tsx:377 | Opacity is in [0, 1] and is 1 up to age 300. It then strictly decreases, reaching 0 at 400. |
| GardenPhysics.WallClamp | components/PoeticMachine.tsx:317-318 | The wall step leaves y, vy, the radius and the colour untouched. |
| GardenPhysics.WallBounds | components/PoeticMachine.tsx:317-318 | On a canvas at least one ball wide, the ball ends with r <= x <= width - r. Each wall hit multiplies vx by -0.5. |
| GardenPhysics.HarvestUpTo | components/PoeticMachine.tsx:321-337 | The pickup pass keeps the seed count. It leaves unvisited seeds alone and reports only visited indices. |
| GardenPhysics.HarvestPicks | components/PoeticMachine.tsx:321-327 | A visited seed is picked exactly when it was uncollected and within r + 20 (compared squared). Afterwards it is collected exactly when it was before or was picked. |
| GardenPhysics.HarvestInOrder | components/PoeticMachine.tsx:321 | Pickups are reported in strictly increasing index order. |
| GardenPhysics.HarvestCycles | components/PoeticMachine.tsx:328-329 | Each pickup advances the palette index by one modulo 5, and the ball takes the colour at the new index. |
| GardenPhysics.HarvestKeepsPalette | components/PoeticMachine.tsx:328-329 | If the ball's colour matches the palette index before the pass, it still matches after, with the index in [0, 5). |
| GardenPhysics.Respawned | components/PoeticMachine.tsx:330-335 | The timer replaces exactly seed i by the seed the spawner gives for the draws, uncollected. Every other seed is untouched. |
| GardenPhysics.RespawnInSpawnArea | components/PoeticMachine.tsx:330-335 | A respawned seed lands uncollected in the spawn area, with 30 <= x < width - 30 and 50 <= y < 0.6 height + 50, wherever it was picked up. |
| GardenPhysics.Follow | components/PoeticMachine.tsx:340-353 | Each frame the butterfly's timer advances by 0.1. Its position moves by its new velocity plus the flutter offset. |
| GardenPhysics.FollowDamping | components/PoeticMachine.tsx:343-350 | A pulled velocity of speed at most 4 is kept. A faster one is scaled by 0.9, so its squared speed drops to 81% and never grows. |
| GardenPhysics.StepSpec | components/PoeticMachine.tsx:236-376 | A frame keeps the canvas size, the ledges, the seed count and the ball radius. It advances the frame counter by one, puts the floor 100 above the bottom, and records the frame's jump input as held. |
| GardenPhysics.StepPreservesValid | components/PoeticMachine.tsx:236-353 | One frame keeps the invariant: charges in [0, 2], palette index in [0, 5), ball colour equal to the palette colour, radius 6, four seeds, and every flower between 1 and 400 old with valid looks. |
| GardenPhysics.JumpCueRule | components/PoeticMachine.tsx:250-263 | The jump cue plays exactly on a rising edge with a charge left. The edge detector always takes the frame's jump input. |
| GardenPhysics.ChargesRefillOnlyAtRest | components/PoeticMachine.tsx:270-302 | A frame gains charges only by ending at rest and grounded with two charges. |
| GardenPhysics.NoFlowerWhenRestingOnFloor | components/PoeticMachine.tsx:274-305 | A floor landing that snaps to rest never sprouts a flower. |
| Garden.ReadControls | components/PoeticMachine.tsx:241-243 | Each control is on when its key or its touch button is held. Its properties are stated by `Garden.ControlsFromKeys`, `Garden.TouchOverridesKeys` and `Garden.TouchDrives`. |
| Garden.ControlsFromKeys | components/PoeticMachine.tsx:241-243 | With no touch button held, left and right follow their arrow keys, and jump follows ArrowUp or Space. |
| Garden.TouchOverridesKeys | components/PoeticMachine.tsx:241-243 | Held touch buttons drive all three controls whatever the keys. |
| Garden.CanvasSize | components/PoeticMachine.tsx:137-150 | At 768 px or wider the canvas takes its container's size, or is left as it was without one. Below 768 px it takes the window size. |
| Garden.Pressed | components/PoeticMachine.tsx:516-521 | A touch start or end changes exactly the pressed button's flag. Its effect on the controls is stated by `Garden.TouchDrives`. |
| Garden.TouchDrives | components/PoeticMachine.tsx:241-243 | A pressed touch button drives its control whatever the keys. A touch on one button leaves the other two controls as they were. |
| Garden.WheelExits | components/PoeticMachine.tsx:157 | A wheel delta beyond 50 in either direction leaves the garden. It is the test `Garden.Session.Wheel` applies. |
| Garden.Session.Start | components/PoeticMachine.tsx:163-234 | Entering the garden gives the initial world, with the seed loop's four seeds. The key map is empty, the touch state is kept, the session is playing and the invariant holds. |
| Garden.Session.KeyDown | components/PoeticMachine.tsx:205-214 | Escape stops play and records nothing. Any other key records its code as held. |
| Garden.Session.KeyUp | components/PoeticMachine.tsx:215 | Releasing a key records its code as not held. |
| Garden.Session.Touch | components/PoeticMachine.tsx:516-521 | Touch handlers update exactly the named button. |
| Garden.Session.Wheel | components/PoeticMachine.tsx:155-160 | A wheel delta above 50 in magnitude stops play. Smaller ones change nothing. |
| Garden.Session.Exit | components/PoeticMachine.tsx:546 | The exit button stops play. |
| Garden.Session.Resize | components/PoeticMachine.tsx:137-150 | The canvas size becomes the resize rule's result. The ledges are not regenerated. |
| Garden.Session.Respawn | components/PoeticMachine.tsx:330-335 | The seeds become the respawned sequence at the current canvas size, and the between-frames invariant is kept. |
| Garden.Session.BeginFrame | components/PoeticMachine.tsx:237-238 | The frame counter is incremented and the floor is set 100 above the bottom. |
| Garden.Session.ApplySteering | components/PoeticMachine.tsx:246-247 | The state becomes the steering phase's result. |
| Garden.Session.ApplyJump | components/PoeticMachine.tsx:250-263 | The state and the cue flag become the jump phase's result. |
| Garden.Session.Move | components/PoeticMachine.tsx:265-268 | The state becomes the integration phase's result. |
| Garden.Session.LandOn | components/PoeticMachine.tsx:274-284 | Landing in place gives exactly the pure landing rule's ball, charges and grounded flag, for the floor and for each ledge. |
| Garden.Session.ApplyCollisions | components/PoeticMachine.tsx:270-302 | The floor check and the in-place ledge loop give the collision phase's state and impact line. |
| Garden.Session.Grow | components/PoeticMachine.tsx:305-314 | The state becomes the growth trigger's result. |
| Garden.Session.ApplyWalls | components/PoeticMachine.tsx:317-318 | The state becomes the wall phase's result. |
| Garden.Session.Collect | components/PoeticMachine.tsx:321-337 | The in-place seed loop gives the pickup pass's state and the picked indices. |
| Garden.Session.Flutter | components/PoeticMachine.tsx:340-353 | The state becomes the butterfly phase's result. |
| Garden.Session.AgeFlowers | components/PoeticMachine.tsx:374-376 | The filter loop and the in-place age loop give the flower phase's state. |
| Garden.Session.Advance | components/PoeticMachine.tsx:237-268 | The state runs from the frame start through integration, with the jump cue reported. |
| Garden.Session.Settle | components/PoeticMachine.tsx:270-318 | The state runs through collisions, the growth trigger and the walls. |
| Garden.Session.Tend | components/PoeticMachine.tsx:321-376 | The state runs through seed pickups, the butterfly and flower ageing. |
| Garden.Session.Step | components/PoeticMachine.tsx:236-376 | One loop iteration in place equals the frame function on the frame's controls, with the same cue and pickups, and keeps the invariant. |
| AttentionGrid.CeilDiv | components/Experiments.tsx:29-30 | The lattice count c satisfies c times 40 >= size and (c - 1) times 40 < size. |
| AttentionGrid.Centre | components/Experiments.tsx:62-63 | Cell i's centre lies strictly inside its 40 px cell, equidistant from both edges (i times 40 + 20). |
| AttentionGrid.Transform | components/Experiments.tsx:71-81 | The near regime holds exactly below 400. Far cells keep scale 1 by 1. Near cells have scaleX in (1, 3] and scaleY in [0.3, 1). |
| AttentionGrid.AtTheCursor | components/Experiments.tsx:74-78 | At distance 0 the cell is at its widest and flattest, 3 by 0.3. |
| AttentionGrid.TransformMonotone | components/Experiments.tsx:76-78 | In the near regime scaleX strictly decreases and scaleY strictly increases with distance. |
| AttentionGrid.ContinuousAtEdge | components/Experiments.tsx:74-78 | Both scales come within any epsilon of 1 as the distance nears 400 from below. |
| AttentionGrid.RectOf | components/Experiments.tsx:87-94 | The drawn rectangle is 12 scaleX by 12 scaleY and centred on the cell origin. |
| AttentionGrid.RestingCellIsBaseSquare | components/Experiments.tsx:87-94 | A far cell is drawn as the plain 12 px square. |
| AttentionGrid.Column | components/Experiments.tsx:61-63 | The inner loop yields n cells, cell iy of column ix at position iy. |
| AttentionGrid.ColumnsLength | components/Experiments.tsx:60-61 | One frame draws cols times rows cells. |
| AttentionGrid.ColumnsAt | components/Experiments.tsx:60-63 | Cell (ix, iy) is drawn once, at position ix times rows + iy. |
| AttentionGrid.SentinelHidesCrosshair | components/Experiments.tsx:100 | The parked cursor (-1000, -1000) never shows the crosshair. |
| AttentionGrid.SentinelLeavesEveryCellAtRest | components/Experiments.tsx:65-74 | Seen from the parked cursor, every cell is in the far regime. |
| AttentionGrid.Grid.constructor | components/Experiments.tsx:17-22 | Before the first resize the lattice is empty and the cursor is parked. |
| AttentionGrid.Grid.Resize | components/Experiments.tsx:24-32 | With a container, the canvas takes its size and the counts are recomputed. Without one, nothing changes. |
| AttentionGrid.Grid.MouseMove | components/Experiments.tsx:34-41 | The cursor becomes the client position mapped into canvas pixels. |
| AttentionGrid.Grid.MouseLeave | components/Experiments.tsx:43-46 | Leaving parks the cursor at (-1000, -1000). |
| AttentionGrid.Grid.Frame | components/Experiments.tsx:60-81 | The nested loops produce exactly the specified cell sequence, column by column. |
| AttentionGrid.LeaveHidesCrosshair | components/Experiments.tsx:100 | After the cursor leaves, the frame draws no crosshair. |
| Routes.CurrentPage | App.tsx:70 | A known path maps to its page. Any other path maps to the home page. |
| Routes.NavigateTarget | App.tsx:73-78 | Navigation happens exactly for pages with a URL, and goes to that non-empty URL. |
| Routes.PageRoundTrip | App.tsx:25-58 | Page to URL to page is the identity on the 14 pages with a URL. |
| Routes.UrlRoundTrip | App.tsx:25-58 | URL to page to URL is the identity on the 14 URLs. |
| Routes.NavigatesUnlessMonsoon | App.tsx:43-58 | Navigation happens for every page except the monsoon stories. |
| Routes.NavigateThenLocate | App.tsx:70-78 | Navigating to a page lands on a path whose current page is that page. |
| Routes.UnknownPathIsHome | App.tsx:70 | An unknown path, including the empty one, is the home page. |
| Routes.ShowNav | App.tsx:81-90 | The navigation bar shows exactly on pages outside the hidden-page list. `Routes.ShowNavExactly` names those pages. |
| Routes.ShowNavExactly | App.tsx:81-90 | The navigation bar is hidden exactly on the five case studies and the Glasscape horizon page. |
| Routes.ShowFooter | App.tsx:91 | The footer is left out of the shell on the two Glasscape pages. `Routes.FooterOnce` shows that those pages still render it once. |
| Routes.FooterOnce | App.tsx:91-139 | Every page renders the footer exactly once. |
| Routes.NavigationRenderCount | App.tsx:95-96 | The navigation bar renders twice on Glasscape, never on a hidden page and once elsewhere. |
| Newsletter.EmailAcceptedIff | components/Footer.tsx:23 | A direct scan for the first '@' and the last '.' accepts exactly the strings `^\S+@\S+\.\S+$` matches. |
| Newsletter.EmailExamples | components/Footer.tsx:23 | "a@b.co" is accepted. "a@.co", "@b.co", "a@b." and "" are rejected. |
| Newsletter.RenderedAll | components/Footer.tsx:55 | Each error entry renders to its message, or to "" when the message is missing. |
| Newsletter.Settled | components/Footer.tsx:45-64 | Success happens exactly on an ok reply, with the thank-you message and the field cleared. Listed errors are joined with ", ". No list gives the generic text. A throw gives the network message. |
| Newsletter.ListedMessages | components/Footer.tsx:53-55 | A single reported error is shown as is. An empty list leaves the message empty. |
| Newsletter.Form.constructor | components/Footer.tsx:11-13 | The form starts idle with an empty field and no message. |
| Newsletter.Form.Disabled | components/Footer.tsx:105-111 | The input and the button are disabled while loading and after success. What that stops is stated by `Newsletter.Form.Attempt`. |
| Newsletter.Form.Attempt | components/Footer.tsx:95-111 | A submit while the form is disabled sends nothing and changes nothing. Otherwise a request is sent exactly for an address the pattern accepts, as the handler does. |
| Newsletter.Form.Submit | components/Footer.tsx:20-30 | A request is sent exactly for an address the pattern accepts, and it is that address. The form is then loading with no message. Otherwise it shows the invalid-address error. |
| Newsletter.Form.Settle | components/Footer.tsx:32-64 | The settled request sets the status and message of the reply rule. The field is cleared only on success. |
| Newsletter.Form.Edit | components/Footer.tsx:100-104 | Editing sets the field and returns the form to idle with no message. |
| Seo.OrDefault | components/SEO.tsx:16-27 | A default applies exactly when the prop is absent. |
| Seo.FullTitle | components/SEO.tsx:28-29 | The title always ends with "Poetics Studio". The site name stays alone. Any other title is kept as the prefix, followed by the bar separator and the site name. |
| Seo.FullTitleShape | components/SEO.tsx:29 | A page title other than the site name is followed by exactly the three-character bar separator and the site name. |
| Seo.MergeSchema | components/SEO.tsx:109 | The merged keys are the union. The caller's values win, and every other default value is kept. |
| Seo.MergeLaws | components/SEO.tsx:109 | Merging nothing changes nothing, and merging the same schema twice equals merging it once. |
| Seo.FinalSchema | components/SEO.tsx:109 | Without a schema the default record is published. With one, the merge of it over the defaults is published. |
| Seo.SchemaOverride | components/SEO.tsx:32-109 | A schema giving only `@type` replaces the default type but keeps the default context and key set. |
| Seo.KeywordsContent | components/SEO.tsx:128 | The keywords tag is the keywords joined with ", ". Its absent and single-keyword cases are stated by `Seo.KeywordsDefault`. |
| Seo.KeywordsDefault | components/SEO.tsx:128 | Absent keywords give the empty content, and a single keyword is used alone. |
| Seo.HeadFor | components/SEO.tsx:111-175 | The effect writes the title, the tag map `Seo.MetaFor`, the canonical link and the JSON-LD schema `Seo.FinalSchema`. |
| Seo.MetaFor | components/SEO.tsx:127-152 | The standard tags followed by the article tags. Its properties are stated by `Seo.ArticleTagsRule`, `Seo.DefaultsApply` and `Seo.TitlesAgree`. |
| Seo.ArticleTagsRule | components/SEO.tsx:140-146 | The published-time and author tags are set exactly for an article with a publication date. The modified-time tag additionally needs a modification date. |
| Seo.DefaultsApply | components/SEO.tsx:20-26 | Absent canonical, image and type give the default URL, image and "website" in the tags that use them, and no article tags. |
| Seo.TitlesAgree | components/SEO.tsx:131-150 | The Open Graph and Twitter titles equal the document title. The article author is the given author or the default. |
| ProjectList.ColSpan | components/ProjectList.tsx:107-115 | Every card spans 3, 4 or 5 columns. |
| ProjectList.SpanIsRhythm | components/ProjectList.tsx:105-115 | The span depends only on the index modulo 3, following 5, 4, 3, so it repeats every three cards. |
| ProjectList.TripleFillsRow | components/ProjectList.tsx:94-115 | Every three cards starting at a multiple of three fill exactly the 12 grid columns. |
| ProjectList.HandleProjectClick | components/ProjectList.tsx:83-87 | A click navigates exactly when the card has a target and a callback is given, and then to that target. |
| ProjectList.HintMeansClickable | components/ProjectList.tsx:133 | The hint is shown exactly on the cards a click with a callback navigates from. Without a callback nothing navigates. |
| ProjectList.EveryProjectLands | components/ProjectList.tsx:24-79 | Every listed project has a target with a URL, and following it lands on a path that shows that page. |
| ProjectList.ListLayout | components/ProjectList.tsx:103-115 | The six cards span 5, 4, 3, 5, 4, 3. |
| About.AwardCount | components/About.tsx:87 | The count is the length of the list, with a missing list counted as empty. |
| About.VisibleAwards | components/About.tsx:60 | Expanded shows every award. Collapsed shows exactly the first min(n, 9), in order. |
| About.ToggleCountsHidden | components/About.tsx:60-95 | The toggle appears exactly when collapsing hides something. Its count n - 9 is then at least 1 and equals the number of hidden awards. |
| About.ToggleTwice | components/About.tsx:89 | Two clicks restore the view, and a click always flips the state. A missing award list shows nothing and no toggle. |
| About.CollapsedKeepsOrder | components/About.tsx:60 | Each collapsed award is the full list's award at the same position, below 9. |
| About.FoundersToggle | components/About.tsx:6-41 | Only the first founder (11 awards) gets the toggle, labelled "See More (2)". |

## Left out

- Canvas drawing, `requestAnimationFrame` scheduling and listener registration and removal are presentation and browser plumbing. The flower shapes, halo and butterfly drawing are not modelled.
- Web Audio cues are a foreign API. The model only reports whether the jump cue would play (the returned `jumped`) and which seeds were picked.
- Floating point is not modelled. All numbers are exact reals. For example, the rest threshold `gravity * 3` is 1.8 in the model, while in doubles it is 1.7999999999999998.
- The butterfly's trigonometric flutter is an input: the two offsets are a parameter of the frame. The `speed > 4` test compares squared speed with 16.
- The Garden's `Math.random()` draws are parameters of the frame and of the seed spawner rather than a generator.
- GardenPhysics.Collide: does not state that a floor hit leaves the ball grounded, because that clause makes the in-place collision loop too costly to verify. `GardenPhysics.FloorLanding` states it for the floor step.
- Seo.HeadFor: carries no contract of its own. Its tag map `Seo.MetaFor` is keyed by the datatype `Seo.Tag` rather than by attribute strings, with `Seo.TagName` giving each attribute name, and the lemmas state its properties over that map.
- The 1000 ms respawn timer is the explicit operation `Garden.Session.Respawn`. When it fires relative to frames is not modelled.
- The effect's teardown and restart when `isPlaying` changes is not modelled. Every entry builds a fresh `Session` with `Start`.
- The attention grid's ambient sway angle (`Math.sin` of the clock) and the `atan2` cursor angle are left out, as is `Math.sqrt`. The distance is a parameter function of the cell centre.
- AttentionGrid.Grid.MouseMove: requires a bounding rectangle of positive size. The source would divide by zero and store Infinity or NaN for an empty rectangle.
- All `fetch` calls are inputs. This covers the Gemini calls in both handlers, the Iconoclast's call and the Formspree call. The Iconoclast's 800 ms minimum delay is not modelled, and the order in which pending requests settle is the caller's choice of `Settle` calls.
- `AnalyzeArchitecture` takes `JSON.parse` as a parameter. Its large request body (system instruction and response schema) is not modelled, beyond the forwarded image and MIME type.
- An undefined `req.body` is not modelled. Destructuring it would throw before any check. The model reads a missing body as an empty one.
- Seo: JSON key order and the `JSON.stringify` text of the schema are not modelled, only the key-to-value map. Which tags an earlier page left in the head is not modelled either, since `setMetaTag` never removes a tag.
- Newsletter.Settled: an error entry whose `message` is not a string is modelled only as missing or present. Its `join` rendering, for example of a number, is not modelled.
- The `preventDefault` calls (arrow keys and the form submit) and the rest of the DOM are not modelled.
- The Contact form, the Journal slug lookup and the 404 `Navigate` redirect component are not part of this model.
