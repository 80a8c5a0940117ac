# CloudSim Plus integration for an existing Next.js application — Dafny model

`ExistingNextJSCloudSimIntegration` connects a running Next.js application to
a CloudSim Plus simulation. It reads the telemetry the application writes to
a JSON metrics file (CPU %, response time, request count, page views) or
draws simulated readings when no file is found. From that telemetry it sizes
five VM roles, three hosts and a workload of page-rendering, API, static-asset,
image and build cloudlets. After the run it reduces the broker's
finished-cloudlet list to four reports: performance, cost, real versus
simulated, and optimisation recommendations.

This project models the logic around the simulator:

- `java_numeric.dfy` — `Math.max`/`min`/`abs`, the clamp idiom
  `Math.max(lo, Math.min(hi, x))`, and the `(int)` cast (truncation toward
  zero, saturating at the `int` bounds). Doubles are `real`.
- `text.dfy` — `indexOf`, `contains`, `trim` and `repeatString`.
- `json_extract.dfy` — the three hand-rolled field readers
  `extractJsonValue`, `extractJsonString` and `extractJsonObject`, with round
  trips: a document that writes a field yields it back.
- `scaling.dfy` — the sizing policy: the three clamped factors, adjusted VM
  cores and RAM, the datacenter scale and host cores, VM MIPS, and the two
  workload multipliers and counts, each with its bands.
- `telemetry.dfy` — what a parse or a simulated reading does to the metrics
  table, and the order in which metrics files are looked for.
- `infrastructure.dfy` — hosts and VMs as plain records, `createPeList`.
- `workload.dfy` — the generated cloudlet list and id-to-label map as
  functions of the two counts, with the invariant that the five generation
  loops keep.
- `analysis.dfy` — per-type sums and counts, costs, shares, accuracy, and the
  threshold rules, each defined by recursion over the finished list.
- `integration.dfy` — the class itself. Its fields are the metrics table,
  the project name, the two adjusted-size arrays, and the hosts, VMs,
  cloudlets and type map. Its methods (the constructor, the collection round,
  the parse, the adjustment, the three `create` methods and the display
  methods) loop as the source does, and each is proved against the functions
  above.

Every report method returns the report it would print. The report holds the
figures and the chosen advice, not the text.

The workload sizing uses a request multiplier, clamped to [0.5, 2.0]. It
sets the page and API counts as `max(4, (int)(6 × m))` and
`max(5, (int)(8 × m))`, so the counts truncate. Cloudlet lengths are scaled
by a response multiplier clamped to [0.3, 2.8] and also truncate. VM MIPS
is scaled only with real data. With 45.2 % CPU, 125.5 ms and 1547 requests
the code makes 12 page-rendering and 16 API cloudlets
(`Scaling.SampleTelemetry`).

The model keeps one behaviour of `extractJsonValue` as written. The value
ends at the next `,` anywhere later in the document, and only when there is
none at the next `}`. So a field that closes its object, with a `,` further
on (`"home":12},"cpuUsage":…`), hands `12}` to `Double.parseDouble`. That
call rejects it and the field reads 0.0 (`JsonExtract.ClosingBraceKept`). The
round trip `JsonExtract.ValueTextRoundTrip` therefore requires a
`}`-terminated value to have no `,` after it. It allows strippable
characters on either side of the value, which `trim()` removes.

## Model

| member | source | states |
|---|---|---|
| JavaNumeric.Max | cloudsim-simulation/src/main/java/org/cloudsim/examples/nextjs/ExistingNextJSCloudSimIntegration.java:314 | `Math.max` on doubles: at least both arguments and equal to one of them |
| JavaNumeric.Min | cloudsim-simulation/src/main/java/org/cloudsim/examples/nextjs/ExistingNextJSCloudSimIntegration.java:314 | `Math.min` on doubles: at most both arguments and equal to one of them |
| JavaNumeric.MaxInt | cloudsim-simulation/src/main/java/org/cloudsim/examples/nextjs/ExistingNextJSCloudSimIntegration.java:453 | `Math.max` on ints: at least both arguments and equal to one of them |
| JavaNumeric.Abs | cloudsim-simulation/src/main/java/org/cloudsim/examples/nextjs/ExistingNextJSCloudSimIntegration.java:671 | `Math.abs`: non-negative and equal to the argument or its negation |
| JavaNumeric.Clamp | cloudsim-simulation/src/main/java/org/cloudsim/examples/nextjs/ExistingNextJSCloudSimIntegration.java:314-316 | `Math.max(lo, Math.min(hi, x))` lies in [lo, hi], is `x` inside the band and the nearer bound outside it |
| JavaNumeric.ClampMonotonic | cloudsim-simulation/src/main/java/org/cloudsim/examples/nextjs/ExistingNextJSCloudSimIntegration.java:314-316 | a clamp never reverses the order of two inputs |
| JavaNumeric.ToInt | cloudsim-simulation/src/main/java/org/cloudsim/examples/nextjs/ExistingNextJSCloudSimIntegration.java:320-321 | the `(int)` cast truncates toward zero on both signs and saturates at the bounds of `int` |
| JavaNumeric.ToIntIsFloor | cloudsim-simulation/src/main/java/org/cloudsim/examples/nextjs/ExistingNextJSCloudSimIntegration.java:320-321 | on a non-negative double that fits, the cast is the floor |
| JavaNumeric.ToIntMonotonic | cloudsim-simulation/src/main/java/org/cloudsim/examples/nextjs/ExistingNextJSCloudSimIntegration.java:320-321 | the cast is monotonic, so bounds on a double carry over to its cast |
| JavaNumeric.CastBetween | cloudsim-simulation/src/main/java/org/cloudsim/examples/nextjs/ExistingNextJSCloudSimIntegration.java:320-321 | a double in [lo, hi + 1) casts into [lo, hi] |
| JavaNumeric.ToIntOfInt | cloudsim-simulation/src/main/java/org/cloudsim/examples/nextjs/ExistingNextJSCloudSimIntegration.java:350 | a whole number survives the cast unchanged |
| Text.IndexOf | cloudsim-simulation/src/main/java/org/cloudsim/examples/nextjs/ExistingNextJSCloudSimIntegration.java:231 | `indexOf(pat, from)` is -1 or a position at or after `from` where `pat` occurs |
| Text.IndexOfFindsEarlier | cloudsim-simulation/src/main/java/org/cloudsim/examples/nextjs/ExistingNextJSCloudSimIntegration.java:231 | an occurrence at `k` is found: the search stops at `k` or earlier |
| Text.IndexOfFirst | cloudsim-simulation/src/main/java/org/cloudsim/examples/nextjs/ExistingNextJSCloudSimIntegration.java:231 | the search returns exactly the first occurrence at or after `from` |
| Text.OccursAtChar | cloudsim-simulation/src/main/java/org/cloudsim/examples/nextjs/ExistingNextJSCloudSimIntegration.java:235 | a one-character pattern occurs exactly where that character stands |
| Text.ContainsOccurs | cloudsim-simulation/src/main/java/org/cloudsim/examples/nextjs/ExistingNextJSCloudSimIntegration.java:712 | `contains` holds whenever the pattern occurs at some position |
| Text.TrimStart | cloudsim-simulation/src/main/java/org/cloudsim/examples/nextjs/ExistingNextJSCloudSimIntegration.java:240 | stripping the leading characters never lengthens the string |
| Text.TrimStartSuffix | cloudsim-simulation/src/main/java/org/cloudsim/examples/nextjs/ExistingNextJSCloudSimIntegration.java:240 | what stays is a suffix starting with a kept character; everything cut off is strippable |
| Text.TrimEnd | cloudsim-simulation/src/main/java/org/cloudsim/examples/nextjs/ExistingNextJSCloudSimIntegration.java:240 | stripping the trailing characters never lengthens the string |
| Text.TrimEndPrefix | cloudsim-simulation/src/main/java/org/cloudsim/examples/nextjs/ExistingNextJSCloudSimIntegration.java:240 | what stays is a prefix ending with a kept character; everything cut off is strippable |
| Text.TrimSlice | cloudsim-simulation/src/main/java/org/cloudsim/examples/nextjs/ExistingNextJSCloudSimIntegration.java:240 | `trim()` is a slice with no strippable character at either end, and all it removes is strippable |
| Text.TrimAbsent | cloudsim-simulation/src/main/java/org/cloudsim/examples/nextjs/ExistingNextJSCloudSimIntegration.java:240 | a character absent from a string is absent from its `trim()` |
| Text.TrimTrimmed | cloudsim-simulation/src/main/java/org/cloudsim/examples/nextjs/ExistingNextJSCloudSimIntegration.java:240 | `trim()` leaves an already trimmed string unchanged |
| Text.TrimIdempotent | cloudsim-simulation/src/main/java/org/cloudsim/examples/nextjs/ExistingNextJSCloudSimIntegration.java:240 | trimming twice is trimming once |
| Text.Trim | cloudsim-simulation/src/main/java/org/cloudsim/examples/nextjs/ExistingNextJSCloudSimIntegration.java:240 | `trim()`: strips the characters up to U+0020 from both ends; `Text.TrimSlice` states what stays and what goes |
| Text.TrimStartBlank | cloudsim-simulation/src/main/java/org/cloudsim/examples/nextjs/ExistingNextJSCloudSimIntegration.java:240 | leading strippable characters make no difference to stripping the start |
| Text.TrimEndBlank | cloudsim-simulation/src/main/java/org/cloudsim/examples/nextjs/ExistingNextJSCloudSimIntegration.java:240 | trailing strippable characters make no difference to stripping the end |
| Text.TrimPadded | cloudsim-simulation/src/main/java/org/cloudsim/examples/nextjs/ExistingNextJSCloudSimIntegration.java:240 | a trimmed text padded with strippable characters on either side trims back to itself |
| Text.Repeat | cloudsim-simulation/src/main/java/org/cloudsim/examples/nextjs/ExistingNextJSCloudSimIntegration.java:329-335 | `count` copies of `str` end to end, none for a count of 0 or less; `Text.RepeatLength` and `Text.RepeatBlock` state its length and blocks |
| Text.RepeatLength | cloudsim-simulation/src/main/java/org/cloudsim/examples/nextjs/ExistingNextJSCloudSimIntegration.java:329-335 | `count` copies of `str` are `count` times as long as `str` |
| Text.RepeatBlock | cloudsim-simulation/src/main/java/org/cloudsim/examples/nextjs/ExistingNextJSCloudSimIntegration.java:329-335 | every block of the repetition is `str` itself |
| Text.RepeatChar | cloudsim-simulation/src/main/java/org/cloudsim/examples/nextjs/ExistingNextJSCloudSimIntegration.java:329-335 | repeating one character puts that character at every position |
| Text.RepeatString | cloudsim-simulation/src/main/java/org/cloudsim/examples/nextjs/ExistingNextJSCloudSimIntegration.java:329-335 | the builder loop returns the repetition: `count` copies of `str`, none for a count of 0 or less |
| JsonExtract.ValueEnd | cloudsim-simulation/src/main/java/org/cloudsim/examples/nextjs/ExistingNextJSCloudSimIntegration.java:235-238 | the value ends at the next ',' after the key, else at the next '}', else -1; a found end lies inside the document |
| JsonExtract.ValueAfter | cloudsim-simulation/src/main/java/org/cloudsim/examples/nextjs/ExistingNextJSCloudSimIntegration.java:231-240 | no occurrence of the search text means no value text |
| JsonExtract.ValueText | cloudsim-simulation/src/main/java/org/cloudsim/examples/nextjs/ExistingNextJSCloudSimIntegration.java:230-240 | no occurrence of `"key":` means no value text |
| JsonExtract.ValueAfterFound | cloudsim-simulation/src/main/java/org/cloudsim/examples/nextjs/ExistingNextJSCloudSimIntegration.java:231-234 | once the key is found at `at`, the value is read from just after the key |
| JsonExtract.ValueFromAt | cloudsim-simulation/src/main/java/org/cloudsim/examples/nextjs/ExistingNextJSCloudSimIntegration.java:235-240 | once the terminator is found, the value text is the trimmed slice before it |
| JsonExtract.ValueTextShape | cloudsim-simulation/src/main/java/org/cloudsim/examples/nextjs/ExistingNextJSCloudSimIntegration.java:230-240 | what reaches the parser follows the key in the document, holds no ',' and is trimmed |
| JsonExtract.NoCommaBefore | cloudsim-simulation/src/main/java/org/cloudsim/examples/nextjs/ExistingNextJSCloudSimIntegration.java:235-240 | the slice from the key to the value's end holds no ',' |
| JsonExtract.ExtractJsonValue | cloudsim-simulation/src/main/java/org/cloudsim/examples/nextjs/ExistingNextJSCloudSimIntegration.java:228-245 | 0.0 when `"key":` is absent or no terminator follows; otherwise the parse of the value text, 0.0 when it does not parse |
| JsonExtract.ExtractJsonString | cloudsim-simulation/src/main/java/org/cloudsim/examples/nextjs/ExistingNextJSCloudSimIntegration.java:250-263 | null when `"key":"` is absent; a returned string holds no '"' and its key occurs in the document |
| JsonExtract.StringFrom | cloudsim-simulation/src/main/java/org/cloudsim/examples/nextjs/ExistingNextJSCloudSimIntegration.java:256-259 | the text read up to the next '"' holds no '"' |
| JsonExtract.ExtractJsonObject | cloudsim-simulation/src/main/java/org/cloudsim/examples/nextjs/ExistingNextJSCloudSimIntegration.java:268-284 | null exactly when `"key":{` is absent; otherwise exactly the keys home, api and other, each with its value read from the whole document |
| JsonExtract.PageMap | cloudsim-simulation/src/main/java/org/cloudsim/examples/nextjs/ExistingNextJSCloudSimIntegration.java:270-280 | the pages map has exactly the three page keys, each with its given value |
| JsonExtract.OccurrenceInPrefix | cloudsim-simulation/src/main/java/org/cloudsim/examples/nextjs/ExistingNextJSCloudSimIntegration.java:231 | an occurrence that starts before the key's own position is visible whatever follows |
| JsonExtract.KeyFoundAfter | cloudsim-simulation/src/main/java/org/cloudsim/examples/nextjs/ExistingNextJSCloudSimIntegration.java:231 | the key is found at its first occurrence in a document laid out around it |
| JsonExtract.CharFoundAfter | cloudsim-simulation/src/main/java/org/cloudsim/examples/nextjs/ExistingNextJSCloudSimIntegration.java:235 | the search for a terminator absent from the value stops right after the value |
| JsonExtract.CharAbsentFrom | cloudsim-simulation/src/main/java/org/cloudsim/examples/nextjs/ExistingNextJSCloudSimIntegration.java:237 | a search for a character that does not occur later fails with -1 |
| JsonExtract.ValueEndAfter | cloudsim-simulation/src/main/java/org/cloudsim/examples/nextjs/ExistingNextJSCloudSimIntegration.java:235-238 | a value followed by ',' (or a last '}' with no ',' after it) ends at that terminator |
| JsonExtract.ValueFromRoundTrip | cloudsim-simulation/src/main/java/org/cloudsim/examples/nextjs/ExistingNextJSCloudSimIntegration.java:234-240 | reading a trimmed value written with strippable padding on either side gives that value back |
| JsonExtract.ValueAfterRoundTrip | cloudsim-simulation/src/main/java/org/cloudsim/examples/nextjs/ExistingNextJSCloudSimIntegration.java:230-240 | a document that writes the search text and then a padded trimmed value yields that value |
| JsonExtract.ValueTextRoundTrip | cloudsim-simulation/src/main/java/org/cloudsim/examples/nextjs/ExistingNextJSCloudSimIntegration.java:228-241 | a document that writes `"key":`, then `text` with any strippable padding, then a terminator, hands exactly `text` to the parser |
| JsonExtract.ClosingBraceKept | cloudsim-simulation/src/main/java/org/cloudsim/examples/nextjs/ExistingNextJSCloudSimIntegration.java:235-240 | a value closed by '}' with a ',' later in the document reaches the parser with the brace and everything up to that ',' |
| JsonExtract.ValueRoundTrip | cloudsim-simulation/src/main/java/org/cloudsim/examples/nextjs/ExistingNextJSCloudSimIntegration.java:228-245 | `extractJsonValue` on such a document returns what the parser makes of `text` (0.0 on failure) |
| JsonExtract.StringAfterFound | cloudsim-simulation/src/main/java/org/cloudsim/examples/nextjs/ExistingNextJSCloudSimIntegration.java:253-256 | once `"key":"` is found at `at`, the string is read from just after it |
| JsonExtract.StringFromRoundTrip | cloudsim-simulation/src/main/java/org/cloudsim/examples/nextjs/ExistingNextJSCloudSimIntegration.java:256-259 | reading a written quote-free name from its start gives the name back |
| JsonExtract.StringRoundTrip | cloudsim-simulation/src/main/java/org/cloudsim/examples/nextjs/ExistingNextJSCloudSimIntegration.java:250-263 | a document that writes `"key":"name"` yields `name` |
| Scaling.CpuScaleFactor | cloudsim-simulation/src/main/java/org/cloudsim/examples/nextjs/ExistingNextJSCloudSimIntegration.java:314 | the CPU factor lies in [0.5, 2.5] and is CPU % / 40 inside the band |
| Scaling.ResponseScaleFactor | cloudsim-simulation/src/main/java/org/cloudsim/examples/nextjs/ExistingNextJSCloudSimIntegration.java:315 | the response factor lies in [0.4, 2.0] and is ms / 100 inside the band |
| Scaling.LoadScaleFactor | cloudsim-simulation/src/main/java/org/cloudsim/examples/nextjs/ExistingNextJSCloudSimIntegration.java:316 | the load factor lies in [0.6, 1.8] and is requests / 100 inside the band |
| Scaling.ScaleFactorsMonotonic | cloudsim-simulation/src/main/java/org/cloudsim/examples/nextjs/ExistingNextJSCloudSimIntegration.java:314-316 | higher telemetry never gives a smaller factor |
| Scaling.AdjustmentFactors | cloudsim-simulation/src/main/java/org/cloudsim/examples/nextjs/ExistingNextJSCloudSimIntegration.java:309-316 | all three factors lie in their bands whatever the table holds; a present entry gives its band's factor of the reading; missing entries read as 30 %, 100 ms and 50 requests |
| Scaling.AdjustedCores | cloudsim-simulation/src/main/java/org/cloudsim/examples/nextjs/ExistingNextJSCloudSimIntegration.java:320 | an adjusted core count is at least 1 |
| Scaling.AdjustedRam | cloudsim-simulation/src/main/java/org/cloudsim/examples/nextjs/ExistingNextJSCloudSimIntegration.java:321 | an adjusted RAM size is at least 1024 MB |
| Scaling.VmSizeBounds | cloudsim-simulation/src/main/java/org/cloudsim/examples/nextjs/ExistingNextJSCloudSimIntegration.java:319-322 | role `i` gets between half and 2.5 times its base cores, and between max(1024, 0.24 x base) and 3.6 x base MB of RAM |
| Scaling.RamFactorBounds | cloudsim-simulation/src/main/java/org/cloudsim/examples/nextjs/ExistingNextJSCloudSimIntegration.java:321 | the product of the response and load factors lies in [0.24, 3.6] |
| Scaling.RamBetween | cloudsim-simulation/src/main/java/org/cloudsim/examples/nextjs/ExistingNextJSCloudSimIntegration.java:321 | the RAM bounds for each base size the roles use |
| Scaling.RamOfProduct | cloudsim-simulation/src/main/java/org/cloudsim/examples/nextjs/ExistingNextJSCloudSimIntegration.java:321 | the RAM formula depends on the two factors only through their product |
| Scaling.RamCast | cloudsim-simulation/src/main/java/org/cloudsim/examples/nextjs/ExistingNextJSCloudSimIntegration.java:321 | base RAM under a combined factor in [0.24, 3.6], floored at 1024 MB, casts into the stated range |
| Scaling.DatacenterScale | cloudsim-simulation/src/main/java/org/cloudsim/examples/nextjs/ExistingNextJSCloudSimIntegration.java:344-347 | the host scale is 1.0 unless real data is on and a CPU reading exists; it is always at least 0.7, exactly 0.7 below 24.5 % and CPU % / 35 from 24.5 % up |
| Scaling.Host1Cores | cloudsim-simulation/src/main/java/org/cloudsim/examples/nextjs/ExistingNextJSCloudSimIntegration.java:350 | the first host has at least 16 cores, the floor of 32 x scale above that |
| Scaling.Host2Cores | cloudsim-simulation/src/main/java/org/cloudsim/examples/nextjs/ExistingNextJSCloudSimIntegration.java:356 | the second host has at least 12 cores, the floor of 20 x scale above that |
| Scaling.DefaultHostCores | cloudsim-simulation/src/main/java/org/cloudsim/examples/nextjs/ExistingNextJSCloudSimIntegration.java:344-356 | without real data the first two hosts have 32 and 20 cores |
| Scaling.HostCoresMonotonic | cloudsim-simulation/src/main/java/org/cloudsim/examples/nextjs/ExistingNextJSCloudSimIntegration.java:350-356 | a larger scale never gives a host fewer cores |
| Scaling.MipsMultiplier | cloudsim-simulation/src/main/java/org/cloudsim/examples/nextjs/ExistingNextJSCloudSimIntegration.java:403-404 | the MIPS multiplier lies in [0.5, 2.2]; it is CPU % / 40 from 20 % to 88 %, 0.5 below and 2.2 above; a missing CPU reading gives 1.0 |
| Scaling.VmMips | cloudsim-simulation/src/main/java/org/cloudsim/examples/nextjs/ExistingNextJSCloudSimIntegration.java:401-405 | without real data role `i` is rated 2200 + 600 i MIPS |
| Scaling.VmMipsBounds | cloudsim-simulation/src/main/java/org/cloudsim/examples/nextjs/ExistingNextJSCloudSimIntegration.java:401-405 | with real data role `i` is rated between half and 2.2 times 2200 + 600 i |
| Scaling.MipsBetween | cloudsim-simulation/src/main/java/org/cloudsim/examples/nextjs/ExistingNextJSCloudSimIntegration.java:404 | a base rating scaled by a factor in [0.5, 2.2] and cast stays in those bounds |
| Scaling.ResponseMultiplier | cloudsim-simulation/src/main/java/org/cloudsim/examples/nextjs/ExistingNextJSCloudSimIntegration.java:429-436 | the response multiplier lies in [0.3, 2.8] and is 1.0 without real data; with real data it is ms / 100 from 30 to 280 ms, and 1.0 when the reading is missing |
| Scaling.RequestMultiplier | cloudsim-simulation/src/main/java/org/cloudsim/examples/nextjs/ExistingNextJSCloudSimIntegration.java:430-437 | the request multiplier lies in [0.5, 2.0] and is 1.0 without real data; with real data it is requests / 100 from 50 to 200, and 0.5 when the count is missing |
| Scaling.PageWorkloads | cloudsim-simulation/src/main/java/org/cloudsim/examples/nextjs/ExistingNextJSCloudSimIntegration.java:453 | there are at least 4 page-rendering cloudlets |
| Scaling.ApiWorkloads | cloudsim-simulation/src/main/java/org/cloudsim/examples/nextjs/ExistingNextJSCloudSimIntegration.java:467 | there are at least 5 API cloudlets |
| Scaling.WorkloadCountBounds | cloudsim-simulation/src/main/java/org/cloudsim/examples/nextjs/ExistingNextJSCloudSimIntegration.java:453-467 | within the multiplier's band there are 4 to 12 page and 5 to 16 API cloudlets, exactly 6 and 8 at 1.0 |
| Scaling.WorkloadCountsTruncate | cloudsim-simulation/src/main/java/org/cloudsim/examples/nextjs/ExistingNextJSCloudSimIntegration.java:453-467 | the counts truncate: a multiplier of 1.25 gives 7 and 10, not 8 and 10 |
| Scaling.SampleTelemetry | cloudsim-simulation/src/main/java/org/cloudsim/examples/nextjs/ExistingNextJSCloudSimIntegration.java:432-467 | a reading of 45.2 % CPU, 125.5 ms and 1547 requests saturates the request multiplier at 2.0; the counts truncate to 12 page and 16 API cloudlets |
| Telemetry.StoreFields | cloudsim-simulation/src/main/java/org/cloudsim/examples/nextjs/ExistingNextJSCloudSimIntegration.java:190-196 | the seven stores add or replace exactly the seven numeric keys and keep every other entry |
| Telemetry.ParsedMetrics | cloudsim-simulation/src/main/java/org/cloudsim/examples/nextjs/ExistingNextJSCloudSimIntegration.java:190-196 | after a parse each of the seven keys holds `extractJsonValue` of the document, and every other entry is kept |
| Telemetry.ProjectNameAfter | cloudsim-simulation/src/main/java/org/cloudsim/examples/nextjs/ExistingNextJSCloudSimIntegration.java:199-202 | the name becomes the document's `projectName` exactly when that string exists and is non-empty; otherwise (absent or empty) it is kept |
| Telemetry.PagesAfter | cloudsim-simulation/src/main/java/org/cloudsim/examples/nextjs/ExistingNextJSCloudSimIntegration.java:205-208 | a document with `"pages":{` stores exactly the map `extractJsonObject` reads, with the three page keys; any other document keeps the old entry |
| Telemetry.ParsedFieldsOverrideDefaults | cloudsim-simulation/src/main/java/org/cloudsim/examples/nextjs/ExistingNextJSCloudSimIntegration.java:190-196 | after a parse the sizing policy's fallbacks never apply; a document without `cpuUsage` sizes as for 0 % CPU |
| Telemetry.SimulatedMetrics | cloudsim-simulation/src/main/java/org/cloudsim/examples/nextjs/ExistingNextJSCloudSimIntegration.java:289-295 | a simulated reading adds or replaces exactly the six reading keys and keeps `successCount` |
| Telemetry.SimulatedPages | cloudsim-simulation/src/main/java/org/cloudsim/examples/nextjs/ExistingNextJSCloudSimIntegration.java:298-302 | the simulated page map has exactly the three page keys |
| Telemetry.SimulatedRanges | cloudsim-simulation/src/main/java/org/cloudsim/examples/nextjs/ExistingNextJSCloudSimIntegration.java:289-302 | simulated readings stay in 80-200 ms, 25-60 % CPU, 40-80 MB and the stated count ranges, so the VM factors stay in narrower bands |
| Telemetry.FirstExisting | cloudsim-simulation/src/main/java/org/cloudsim/examples/nextjs/ExistingNextJSCloudSimIntegration.java:162-172 | the fallback used is the first path that exists; none when no path exists |
| Telemetry.MetricsDocument | cloudsim-simulation/src/main/java/org/cloudsim/examples/nextjs/ExistingNextJSCloudSimIntegration.java:147-182 | the document a round parses, or none for simulation; `Telemetry.MetricsDocumentOrder` states the lookup order |
| Telemetry.MetricsDocumentOrder | cloudsim-simulation/src/main/java/org/cloudsim/examples/nextjs/ExistingNextJSCloudSimIntegration.java:147-182 | the configured file wins when it exists; a fallback is used only when the configured file and every earlier fallback are missing; with no file the round simulates |
| Infrastructure.PlannedHosts | cloudsim-simulation/src/main/java/org/cloudsim/examples/nextjs/ExistingNextJSCloudSimIntegration.java:340-377 | three hosts: at least 16 and 12 cores for the first two, 8 for the third, 64 + 32 + 16 GB of RAM |
| Infrastructure.PlannedVm | cloudsim-simulation/src/main/java/org/cloudsim/examples/nextjs/ExistingNextJSCloudSimIntegration.java:395-417 | the VM for a role from its current sizes; `Infrastructure.PlannedVmBounds` states its bounds |
| Infrastructure.PeList | cloudsim-simulation/src/main/java/org/cloudsim/examples/nextjs/ExistingNextJSCloudSimIntegration.java:379-385 | `n` processing elements, each of the given MIPS, none for `n` of 0 or less |
| Infrastructure.CreatePeList | cloudsim-simulation/src/main/java/org/cloudsim/examples/nextjs/ExistingNextJSCloudSimIntegration.java:379-385 | the loop builds exactly that list |
| Infrastructure.TotalsOfThree | cloudsim-simulation/src/main/java/org/cloudsim/examples/nextjs/ExistingNextJSCloudSimIntegration.java:375-376 | the capacity line sums cores and RAM over the three hosts |
| Infrastructure.DatacenterCapacity | cloudsim-simulation/src/main/java/org/cloudsim/examples/nextjs/ExistingNextJSCloudSimIntegration.java:340-377 | the hosts total at least 36 cores (60 without real data) and 64 + 32 + 16 GB of RAM; the third host has 8 cores |
| Infrastructure.PlannedVmBounds | cloudsim-simulation/src/main/java/org/cloudsim/examples/nextjs/ExistingNextJSCloudSimIntegration.java:395-417 | each VM has between half and 2.5 times its role's base cores, at least 1024 MB, and the base MIPS (without real data) or 0.5 to 2.2 times it |
| Workload.Label | cloudsim-simulation/src/main/java/org/cloudsim/examples/nextjs/ExistingNextJSCloudSimIntegration.java:462-512 | the label each class records: the project name with " Page Rendering" or " API Processing", or a fixed label; `Workload.LabelsDistinct` states they never collide |
| Workload.Length | cloudsim-simulation/src/main/java/org/cloudsim/examples/nextjs/ExistingNextJSCloudSimIntegration.java:455-507 | each class's cloudlet length: the page and API bases scaled by the response multiplier and cast, the other bases fixed; `Workload.LengthsPositive` states their bounds |
| Workload.Generated | cloudsim-simulation/src/main/java/org/cloudsim/examples/nextjs/ExistingNextJSCloudSimIntegration.java:422-517 | the whole cloudlet list; `Workload.GeneratedIdsLabelled` and `Workload.ClassCounts` state its ids and class counts |
| Workload.TypeMap | cloudsim-simulation/src/main/java/org/cloudsim/examples/nextjs/ExistingNextJSCloudSimIntegration.java:422-517 | the id-to-label entries; `Workload.GeneratedIdsLabelled` states they cover exactly the generated ids |
| Workload.LabelsDistinct | cloudsim-simulation/src/main/java/org/cloudsim/examples/nextjs/ExistingNextJSCloudSimIntegration.java:462-512 | different classes get different labels whatever the project name |
| Workload.ClassAtBlock | cloudsim-simulation/src/main/java/org/cloudsim/examples/nextjs/ExistingNextJSCloudSimIntegration.java:426-514 | each class's ids form the block [start, start + count) of [0, total) |
| Workload.ClassOrder | cloudsim-simulation/src/main/java/org/cloudsim/examples/nextjs/ExistingNextJSCloudSimIntegration.java:426-514 | ids follow the class order: a later id never belongs to an earlier class |
| Workload.UpToStep | cloudsim-simulation/src/main/java/org/cloudsim/examples/nextjs/ExistingNextJSCloudSimIntegration.java:454-463 | generating one more cloudlet appends it and records its label |
| Workload.GenerateStart | cloudsim-simulation/src/main/java/org/cloudsim/examples/nextjs/ExistingNextJSCloudSimIntegration.java:423-426 | before the first loop nothing is generated and the type map is unchanged |
| Workload.GenerateStep | cloudsim-simulation/src/main/java/org/cloudsim/examples/nextjs/ExistingNextJSCloudSimIntegration.java:454-463 | one loop step (build the cloudlet, record its label, bump the id) extends the generation by one id |
| Workload.GenerateDone | cloudsim-simulation/src/main/java/org/cloudsim/examples/nextjs/ExistingNextJSCloudSimIntegration.java:422-517 | after the last step the list is the whole workload and the map holds every label |
| Workload.GeneratedIdsLabelled | cloudsim-simulation/src/main/java/org/cloudsim/examples/nextjs/ExistingNextJSCloudSimIntegration.java:422-517 | ids run from 0 consecutively, every id is a key of the type map, and its label names the class that built it |
| Workload.CountBelowBlock | cloudsim-simulation/src/main/java/org/cloudsim/examples/nextjs/ExistingNextJSCloudSimIntegration.java:426-514 | below any id, a class holds the part of its block under that id |
| Workload.ClassCounts | cloudsim-simulation/src/main/java/org/cloudsim/examples/nextjs/ExistingNextJSCloudSimIntegration.java:452-514 | the list holds exactly `pages` page, `apis` API, 4 static, 3 image and 2 build cloudlets |
| Workload.LengthsPositive | cloudsim-simulation/src/main/java/org/cloudsim/examples/nextjs/ExistingNextJSCloudSimIntegration.java:455-469 | with the response multiplier in its band every length is positive: at least 2700 for pages and 1350 for API calls |
| Workload.ScaledLengthAtLeast | cloudsim-simulation/src/main/java/org/cloudsim/examples/nextjs/ExistingNextJSCloudSimIntegration.java:455 | a base length scaled by at least 0.3 and cast keeps the matching lower bound |
| Workload.DefaultWorkload | cloudsim-simulation/src/main/java/org/cloudsim/examples/nextjs/ExistingNextJSCloudSimIntegration.java:452-514 | without real data there are 6 + 8 + 4 + 3 + 2 = 23 cloudlets, the page lengths being 9000 + 1200 j |
| Analysis.SuccessfulBound | cloudsim-simulation/src/main/java/org/cloudsim/examples/nextjs/ExistingNextJSCloudSimIntegration.java:581-583 | successes never exceed the list size, and equal it exactly when every cloudlet finished |
| Analysis.UncountedHasNoTime | cloudsim-simulation/src/main/java/org/cloudsim/examples/nextjs/ExistingNextJSCloudSimIntegration.java:581-592 | a type with no finished cloudlet has accumulated no time |
| Analysis.ByTypeIsPerType | cloudsim-simulation/src/main/java/org/cloudsim/examples/nextjs/ExistingNextJSCloudSimIntegration.java:581-593 | the time and count maps hold exactly the types of finished cloudlets, with each type's total time and (non-zero) count |
| Analysis.PartsSumToWhole | cloudsim-simulation/src/main/java/org/cloudsim/examples/nextjs/ExistingNextJSCloudSimIntegration.java:581-593 | over a repeat-free list of the types, the per-type times add up to the total time and the counts to the successes |
| Analysis.TimeValuesAreTimes | cloudsim-simulation/src/main/java/org/cloudsim/examples/nextjs/ExistingNextJSCloudSimIntegration.java:601-603 | the time map read at the listed types adds up the per-type times |
| Analysis.TimesSumToTotal | cloudsim-simulation/src/main/java/org/cloudsim/examples/nextjs/ExistingNextJSCloudSimIntegration.java:581-593 | the entries of the time map add up to the total time |
| Analysis.TotalCost | cloudsim-simulation/src/main/java/org/cloudsim/examples/nextjs/ExistingNextJSCloudSimIntegration.java:613-621 | `totalCost`: the costs of the finished cloudlets added up; `Analysis.CostsAtRate` states it is the cost of the total time |
| Analysis.CostsAtRate | cloudsim-simulation/src/main/java/org/cloudsim/examples/nextjs/ExistingNextJSCloudSimIntegration.java:615-626 | each cost is time x 0.0042: the total cost is the cost of the total time, and each type's cost the cost of its time |
| Analysis.CostValuesAreTimeCosts | cloudsim-simulation/src/main/java/org/cloudsim/examples/nextjs/ExistingNextJSCloudSimIntegration.java:615-626 | the cost map read at the listed types adds up the costs of the per-type times |
| Analysis.CostSharesSumTo100 | cloudsim-simulation/src/main/java/org/cloudsim/examples/nextjs/ExistingNextJSCloudSimIntegration.java:615-639 | the per-type costs add up to the total cost, and their percentage shares to 100 when the total is not zero |
| Analysis.Shares | cloudsim-simulation/src/main/java/org/cloudsim/examples/nextjs/ExistingNextJSCloudSimIntegration.java:634-639 | the shares exist exactly when the total is not zero and cover exactly the cost map's keys |
| Analysis.SharesOfSum | cloudsim-simulation/src/main/java/org/cloudsim/examples/nextjs/ExistingNextJSCloudSimIntegration.java:634-639 | summing the shares is taking the share of the sum |
| Analysis.MonthlyCost | cloudsim-simulation/src/main/java/org/cloudsim/examples/nextjs/ExistingNextJSCloudSimIntegration.java:629 | the monthly estimate is the hourly cost x 24 x 30 = 720 |
| Analysis.CostPerRequest | cloudsim-simulation/src/main/java/org/cloudsim/examples/nextjs/ExistingNextJSCloudSimIntegration.java:630-631 | the result times max(1, requestCount) is the total: unchanged for at most one request and never more than the total |
| Analysis.TotalMillisIsTotalTime | cloudsim-simulation/src/main/java/org/cloudsim/examples/nextjs/ExistingNextJSCloudSimIntegration.java:657-662 | summing milliseconds is converting the total time |
| Analysis.NothingFinishedNoTime | cloudsim-simulation/src/main/java/org/cloudsim/examples/nextjs/ExistingNextJSCloudSimIntegration.java:657-665 | with nothing finished the millisecond sum is zero, so no division is needed |
| Analysis.Accuracy | cloudsim-simulation/src/main/java/org/cloudsim/examples/nextjs/ExistingNextJSCloudSimIntegration.java:670-672 | the accuracy is computed exactly when both times are positive |
| Analysis.AccuracyBounds | cloudsim-simulation/src/main/java/org/cloudsim/examples/nextjs/ExistingNextJSCloudSimIntegration.java:670-672 | the accuracy lies in [0, 100], is 100 exactly when the times agree, and does not depend on their order |
| Analysis.Percentage | cloudsim-simulation/src/main/java/org/cloudsim/examples/nextjs/ExistingNextJSCloudSimIntegration.java:597 | `k * 100.0 / n` lies in [0, 100] and is 100 exactly when `k == n` |
| Analysis.Performance | cloudsim-simulation/src/main/java/org/cloudsim/examples/nextjs/ExistingNextJSCloudSimIntegration.java:570-606 | the performance report: successes out of the list size, the rate (none for an empty list), the total time and the averages; `Analysis.PerformanceFigures` states its bounds |
| Analysis.Costs | cloudsim-simulation/src/main/java/org/cloudsim/examples/nextjs/ExistingNextJSCloudSimIntegration.java:608-640 | the cost report: the hourly cost is the cost of the total time, the monthly estimate 720 times it, and the per-request cost times max(1, requestCount) gives it back |
| Analysis.Comparison | cloudsim-simulation/src/main/java/org/cloudsim/examples/nextjs/ExistingNextJSCloudSimIntegration.java:642-679 | the comparison report exists exactly when real data is on |
| Analysis.PerformanceFigures | cloudsim-simulation/src/main/java/org/cloudsim/examples/nextjs/ExistingNextJSCloudSimIntegration.java:581-605 | the success rate lies in [0, 100] and is 100 exactly when all finished; the averages cover exactly the finished types |
| Analysis.ComparisonFigures | cloudsim-simulation/src/main/java/org/cloudsim/examples/nextjs/ExistingNextJSCloudSimIntegration.java:642-679 | the comparison appears exactly with real data; its simulated figure is the mean finished time in ms; the accuracy is given exactly when both times are positive and lies in [0, 100] |
| Analysis.AdviseWorkload | cloudsim-simulation/src/main/java/org/cloudsim/examples/nextjs/ExistingNextJSCloudSimIntegration.java:712-726 | page rendering is advised on first (slow above 8 s, optimal otherwise), then API processing (slow above 5 s, excellent otherwise); each verdict holds exactly under its condition; any other type gets no advice |
| Analysis.AdviseCpu | cloudsim-simulation/src/main/java/org/cloudsim/examples/nextjs/ExistingNextJSCloudSimIntegration.java:736-744 | exactly one of high (above 70 %), low (below 25 %) or optimal |
| Analysis.AdviseResponse | cloudsim-simulation/src/main/java/org/cloudsim/examples/nextjs/ExistingNextJSCloudSimIntegration.java:746-753 | exactly one of slow (above 200 ms), excellent (below 50 ms) or good |
| Analysis.AdviceMonotonic | cloudsim-simulation/src/main/java/org/cloudsim/examples/nextjs/ExistingNextJSCloudSimIntegration.java:736-753 | a higher reading never gets a milder verdict |
| Analysis.FinishedIsCounted | cloudsim-simulation/src/main/java/org/cloudsim/examples/nextjs/ExistingNextJSCloudSimIntegration.java:690-697 | every finished cloudlet's type is counted |
| Analysis.KeysCover | cloudsim-simulation/src/main/java/org/cloudsim/examples/nextjs/ExistingNextJSCloudSimIntegration.java:690-697 | a listing of the counted types names every finished cloudlet's type |
| Analysis.Averages | cloudsim-simulation/src/main/java/org/cloudsim/examples/nextjs/ExistingNextJSCloudSimIntegration.java:700-703 | the averages have exactly the keys of the time map |
| Analysis.AverageOfType | cloudsim-simulation/src/main/java/org/cloudsim/examples/nextjs/ExistingNextJSCloudSimIntegration.java:690-703 | a type has an average exactly when it has a finished cloudlet, and the average is its total time over its count |
| Analysis.WorkloadAdvices | cloudsim-simulation/src/main/java/org/cloudsim/examples/nextjs/ExistingNextJSCloudSimIntegration.java:708-727 | the rules stop exactly when a null type is among the averages; otherwise each labelled type gets its rule's advice and no other entry appears |
| Analysis.RulesOnStep | cloudsim-simulation/src/main/java/org/cloudsim/examples/nextjs/ExistingNextJSCloudSimIntegration.java:708-727 | applying the rules to one more type adds that type's advice, if any, and nothing else |
| Analysis.Recommend | cloudsim-simulation/src/main/java/org/cloudsim/examples/nextjs/ExistingNextJSCloudSimIntegration.java:681-754 | the recommendation report: the per-type rules over the averages and, with real data, the CPU and response rules; `Analysis.RecommendWhenTyped` states when each part exists |
| Analysis.RecommendWhenTyped | cloudsim-simulation/src/main/java/org/cloudsim/examples/nextjs/ExistingNextJSCloudSimIntegration.java:681-754 | recommendations are given exactly when every finished cloudlet has a recorded type; the infrastructure part exactly with real data |
| Analysis.UntypedNeverCounted | cloudsim-simulation/src/main/java/org/cloudsim/examples/nextjs/ExistingNextJSCloudSimIntegration.java:690-697 | with every finished cloudlet typed nothing is counted under null |
| Analysis.CpuAdviceAgreesWithScaling | cloudsim-simulation/src/main/java/org/cloudsim/examples/nextjs/ExistingNextJSCloudSimIntegration.java:736-744 | "scale up" happens only where the VM core factor is already above 1.75 and the host factor above 2; "downsize" only where the core factor is below 0.625 |
| Analysis.ResponseAdviceAgreesWithScaling | cloudsim-simulation/src/main/java/org/cloudsim/examples/nextjs/ExistingNextJSCloudSimIntegration.java:746-753 | "slow" happens only where the response factor is at its cap of 2.0; "excellent" only where it is below 0.5 |
| Analysis.ApiLabelNotPage | cloudsim-simulation/src/main/java/org/cloudsim/examples/nextjs/ExistingNextJSCloudSimIntegration.java:712-719 | appending " API Processing" to a name without "Page Rendering" never creates it |
| Analysis.FixedLabelsUnadvised | cloudsim-simulation/src/main/java/org/cloudsim/examples/nextjs/ExistingNextJSCloudSimIntegration.java:712-726 | the static, image and build labels get no per-type advice |
| Analysis.LabelAdvice | cloudsim-simulation/src/main/java/org/cloudsim/examples/nextjs/ExistingNextJSCloudSimIntegration.java:712-726 | on the generator's labels the rules follow the class: page advice for pages, API advice for API calls (unless the project name mentions page rendering), none for the rest |
| Integration.Clone | cloudsim-simulation/src/main/java/org/cloudsim/examples/nextjs/ExistingNextJSCloudSimIntegration.java:96-97 | `clone()` gives a fresh array with the same contents |
| Integration.ExistingNextJSCloudSimIntegration.constructor | cloudsim-simulation/src/main/java/org/cloudsim/examples/nextjs/ExistingNextJSCloudSimIntegration.java:83-116 | the path is the custom one when non-empty; without monitoring the table is empty and the sizes are the base sizes; with it one collection round fills the table; then hosts, VMs and cloudlets are built from the table |
| Integration.ExistingNextJSCloudSimIntegration.BuildInfrastructure | cloudsim-simulation/src/main/java/org/cloudsim/examples/nextjs/ExistingNextJSCloudSimIntegration.java:99-112 | one collection round when monitoring is on, then the datacenter, the VMs and the cloudlets, each a function of the resulting table |
| Integration.ExistingNextJSCloudSimIntegration.AdjustInfrastructureBasedOnRealMetrics | cloudsim-simulation/src/main/java/org/cloudsim/examples/nextjs/ExistingNextJSCloudSimIntegration.java:308-327 | every role is resized from the base sizes by the current factors: at least 1 core and 1024 MB each; the base sizes are untouched |
| Integration.ExistingNextJSCloudSimIntegration.ParseExistingAppMetrics | cloudsim-simulation/src/main/java/org/cloudsim/examples/nextjs/ExistingNextJSCloudSimIntegration.java:187-223 | the seven stores, the project name and the pages entry follow the document, then the VMs are resized |
| Integration.ExistingNextJSCloudSimIntegration.StoreMetricFields | cloudsim-simulation/src/main/java/org/cloudsim/examples/nextjs/ExistingNextJSCloudSimIntegration.java:190-196 | the table becomes the parsed table |
| Integration.ExistingNextJSCloudSimIntegration.StoreProjectName | cloudsim-simulation/src/main/java/org/cloudsim/examples/nextjs/ExistingNextJSCloudSimIntegration.java:199-202 | the name follows the project-name rule |
| Integration.ExistingNextJSCloudSimIntegration.StorePageMetrics | cloudsim-simulation/src/main/java/org/cloudsim/examples/nextjs/ExistingNextJSCloudSimIntegration.java:205-208 | the pages entry follows the pages rule |
| Integration.ExistingNextJSCloudSimIntegration.GenerateSimulatedMetrics | cloudsim-simulation/src/main/java/org/cloudsim/examples/nextjs/ExistingNextJSCloudSimIntegration.java:289-303 | the table and the pages entry become the simulated ones |
| Integration.ExistingNextJSCloudSimIntegration.CollectRealTimeMetrics | cloudsim-simulation/src/main/java/org/cloudsim/examples/nextjs/ExistingNextJSCloudSimIntegration.java:147-182 | the document found in lookup order is parsed; with none, or an unreadable one, the round simulates and the sizes are unchanged |
| Integration.ExistingNextJSCloudSimIntegration.CreateDatacenter | cloudsim-simulation/src/main/java/org/cloudsim/examples/nextjs/ExistingNextJSCloudSimIntegration.java:340-377 | the hosts are the three planned hosts for the current scale |
| Integration.ExistingNextJSCloudSimIntegration.CreateVms | cloudsim-simulation/src/main/java/org/cloudsim/examples/nextjs/ExistingNextJSCloudSimIntegration.java:395-417 | one VM per role from that role's current sizes and rating |
| Integration.ExistingNextJSCloudSimIntegration.CreateCloudlets | cloudsim-simulation/src/main/java/org/cloudsim/examples/nextjs/ExistingNextJSCloudSimIntegration.java:422-517 | the list is the whole generated workload for the two multipliers and the map gains every id's label |
| Integration.ExistingNextJSCloudSimIntegration.AddBatch | cloudsim-simulation/src/main/java/org/cloudsim/examples/nextjs/ExistingNextJSCloudSimIntegration.java:454-463 | one of the five loops: `count` more cloudlets of a class under consecutive ids, returning the next free id |
| Integration.ExistingNextJSCloudSimIntegration.DisplayPerformanceAnalysis | cloudsim-simulation/src/main/java/org/cloudsim/examples/nextjs/ExistingNextJSCloudSimIntegration.java:570-606 | the loop computes the performance report: successes, rate, total time and per-type averages |
| Integration.ExistingNextJSCloudSimIntegration.AverageTimes | cloudsim-simulation/src/main/java/org/cloudsim/examples/nextjs/ExistingNextJSCloudSimIntegration.java:601-603 | dividing each type's total by its count gives the per-type averages |
| Integration.ExistingNextJSCloudSimIntegration.DisplayCostAnalysis | cloudsim-simulation/src/main/java/org/cloudsim/examples/nextjs/ExistingNextJSCloudSimIntegration.java:608-640 | the loop computes the cost report: hourly, monthly, per request, per type and shares |
| Integration.ExistingNextJSCloudSimIntegration.DisplayRealVsSimulatedComparison | cloudsim-simulation/src/main/java/org/cloudsim/examples/nextjs/ExistingNextJSCloudSimIntegration.java:642-679 | nothing without real data; otherwise the comparison report |
| Integration.ExistingNextJSCloudSimIntegration.DisplayOptimizationRecommendations | cloudsim-simulation/src/main/java/org/cloudsim/examples/nextjs/ExistingNextJSCloudSimIntegration.java:681-754 | the averages, the per-type rules and, with real data, the infrastructure rules; None when a null type reaches the rules |
| Integration.ExistingNextJSCloudSimIntegration.ApplyWorkloadRules | cloudsim-simulation/src/main/java/org/cloudsim/examples/nextjs/ExistingNextJSCloudSimIntegration.java:708-727 | the rules applied one average at a time give the per-type advice, stopping at a null type |
| Integration.ExistingNextJSCloudSimIntegration.DisplayResults | cloudsim-simulation/src/main/java/org/cloudsim/examples/nextjs/ExistingNextJSCloudSimIntegration.java:555-568 | the four reports over the finished list |

## Left out

- The CloudSim Plus objects (`CloudSimPlus`, `DatacenterSimple`,
  `HostSimple`, `VmSimple`, `CloudletSimple`, the schedulers, the
  datacenter's cost settings), `createBroker`, the broker's submissions and
  `simulation.start()` are library calls. Hosts, VMs and cloudlets are plain
  records. The finished list (id, finished flag, execution time) is a
  parameter of the report methods.
- The monitoring thread, its five-second repetition and the three-second
  sleep are concurrency and timing. The model runs exactly one collection
  round before the infrastructure is built, which is what the first tick of
  the monitor does. `runSimulation`'s shutdown of the monitor is not
  modelled.
- The file system is a map from path to contents. `None` stands for a file
  that exists but cannot be read, where the source catches an `IOException`
  and simulates.
- Strings are sequences of Unicode characters, not Java's UTF-16 code
  units. On the ASCII keys and delimiters the searches, slices and `trim()`
  pick out the same text either way. The platform decoding of
  `new String(bytes)` is folded into the contents of the file map.
- `Math.random` is a sequence of nine draws in [0, 1), a parameter.
- `Double.parseDouble` is a parameter `parse: string -> Option<real>`, so
  which strings parse is left open.
- Console output is not modelled: banners, `String.format`,
  `displayCurrentMetrics`, the `CloudletsTableBuilder` table, the VM names,
  and the tips and closing lines of the recommendations. The reports are
  returned as values instead. `repeatString` is modelled because every report
  banner (75 or 55 `=` characters) is built with it.
- Floating point is not modelled: doubles are exact reals. There is no NaN.
  Where the source divides by zero and prints NaN, the model gives `None`:
  the success rate on an empty list (`Analysis.Performance`) and the cost
  shares when the total cost is zero (`Analysis.Shares`).
- `main`, with its argument handling, and the one-argument constructor, which
  only passes a null path.
- The `catch` in `parseExistingAppMetrics` is not modelled. No statement in
  its `try` can throw, since the three readers catch their own exceptions,
  so a parse always stores the fields and resizes.
- The `pages` entry of `realTimeMetrics` is a separate field,
  `pageMetrics`, because the map otherwise holds doubles only. The model
  keeps that entry's keys, its values and when it is stored or replaced.
  Any other object a JSON document could put there is not modelled.
- A cloudlet whose id has no recorded type makes the Java `get` return null.
  The model gives `None` for that type. The per-type maps accept it as a
  key, as `HashMap` does. The recommendation rules call `contains` on it and
  throw; `DisplayOptimizationRecommendations` returns `None` for that case.
  Which advice was already printed before the throw depends on hash order
  and is not modelled.
- Integer overflow of the id counter, the counts and the MIPS arithmetic is
  not modelled. No input can reach it: the counts are at most 16 and the
  ratings at most 10120.
- The constructor is split into a part that sets the fields and
  `BuildInfrastructure`, which runs the collection round and the three
  `create` methods. The five generation loops of `createCloudlets` share one
  method, `AddBatch`. The seven stores, the project-name store and the
  pages store of `parseExistingAppMetrics` are three methods. The behaviour
  is the same.
- `baseVmCores` and `baseVmRam` are never written by the source. They are
  constant sequences here; the two adjusted-size arrays remain arrays.
