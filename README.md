# Propagation estimator: a verified model of its decision core

The propagation estimator (`prop-src`) turns reception reports ("spots") from
the Reverse Beacon Network and PSKReporter into an estimate of which stations
an operator can work on which HF band. This project models its deterministic
core in Dafny and proves what that core promises.

- **Locators and callsigns.**
  - Maidenhead locator decoding, to the centre of its 2° by 1° square.
  - Callsign normalisation: upper-cased, with `/…` and `-…` suffixes removed.
  - The HamDB locator cache: 30-day expiry, the locator format check, the
    pending set, and the batch of at most 50 lookups.
  - The longest-prefix fallback table, and the region names.
- **Static tables.**
  - Frequency to band.
  - Band to the solar report's day or night band-condition grade.
  - Ionosonde MUF to band label and colour.
- **The zone engine.**
  - It classifies each spot as outbound or inbound relative to the observer.
  - It groups the spots by band and direction.
  - It clusters each group's points into the connected components of the
    "at most 1500 km apart" graph.
  - It summarises each cluster: outline, centre, best SNR and count.
  - It flags inbound and outbound clusters of one band whose centres are close.
- **The workability classifier.**
  - Spot deduplication, with the demonstration fallback.
  - Migration of the antenna settings.
  - Accumulation of each station's spots per band.
  - The per-band verdict: antenna, skip zone, SNR and evidence, then band
    conditions.
  - The explanation of each verdict.
  - The overall status of a station.
  - The station filter, the three status buckets sorted by SNR, and the
    spotter counts.

Great-circle distance is computed with floating-point trigonometry in the
program. Here it is a parameter `dist: (Coord, Coord) -> real`. Symmetry is
assumed only where the clustering closure lemma needs it.

Integers are unbounded. The source works with JavaScript numbers, which stay
exact at the magnitudes involved (kHz, dB, milliseconds since 1970).

State that the source updates in place takes an imperative form here:

- The HamDB cache and its pending set are a class, `HamDb.GridCache`.
- The dictionary-filling loops are methods with loop invariants. These are
  the dedup map, the spot groups, the band accumulation, the per-band pass,
  the spotter counts, the solar grade tables, clustering and the gift wrap.
- Each such method is proved against a specification function, for example
  `Deduplicate` against `KeptFor` and `AnalyseBands` against `Analysis`.
  Lemmas then state the source's promises about that function.

Modules: `Common` (options, JavaScript truthiness, ASCII case, key order of
objects), `Geo`, `Bands`, `HamDb`, `Callsigns`, `Solar`, `Ionosonde`,
`Spots`, `Clustering`, `Hull`, `Propagation`, `Dedup`, `Antennas`,
`Workability`, `SpotGroups`, `BandAnalysis`, `Stations`, `Ranking`.

## Model

| member | source | states |
|---|---|---|
| Geo.GridToLatLon | prop-src/src/utils/geo.js:3-17 | None for a missing, empty or short locator. Some exactly when the upper-cased first four characters are two field letters A–R and two digits. The point lies in [−89.5, 89.5] × [−179, 179]. |
| Geo.LocatorOf | prop-src/src/utils/geo.js:14-15 | Reference encoder that the decoder is checked against: the locator of the square that contains a point. The point lies in that square's 2° by 1° box. |
| Geo.GridCaseInsensitive | prop-src/src/utils/geo.js:5 | A locator and its upper-cased form decode to the same result. |
| Geo.GridPrefixDecodesAlike | prop-src/src/utils/geo.js:4-15 | Only the first four characters matter: a six-character locator decodes like its four-character square. |
| Geo.GridDecodesToSquareCentre | prop-src/src/utils/geo.js:14-15 | The decoded point is the centre of the square: 1° east and 0.5° north of its south-west corner. |
| Geo.GridRoundTrip | prop-src/src/utils/geo.js:3-17 | Round trip: encoding a decoded locator gives back its upper-cased four-character prefix. |
| Geo.GridDecodeInjective | prop-src/src/utils/geo.js:14-15 | Distinct valid four-character locators decode to distinct points. |
| Geo.LocatorOfDecodesNearby | prop-src/src/utils/geo.js:14-15 | Encoding any point and decoding the result lands within 1° of longitude and 0.5° of latitude of it. |
| Geo.GreatCirclePath | prop-src/src/utils/geo.js:34-49 | A zero angular distance gives exactly `[from]`. Otherwise the result has `numPoints + 1` points, the i-th being the i-th interpolated point. |
| Geo.LatLonToXY | prop-src/src/utils/geo.js:58-71 | The output always lies in [0, width] × [0, height], and an in-range y passes through unchanged. For longitudes within one wrap of the map's range, x lies below the width and maps back to the longitude up to ±360°. |
| Bands.FindBand | prop-src/src/constants/bands.js:16 | `find` semantics: None exactly when no band contains the frequency. Otherwise it is the first band in list order whose inclusive range contains it. |
| Bands.GetBandFromFreq | prop-src/src/constants/bands.js:16 | None exactly when no band contains the frequency. Otherwise the result is a table band that contains it, and it is the only one. |
| Bands.BandsAscending | prop-src/src/constants/bands.js:4-14 | Each range is non-empty, and the table is sorted with gaps between neighbouring bands. |
| Bands.BandsDisjoint | prop-src/src/constants/bands.js:4-14 | No two bands share a frequency, so at most one band matches. |
| Bands.SkipZonesWellFormed | prop-src/src/constants/bands.js:5-13 | Every skip zone has 0 ≤ min < max. |
| Bands.NvisBands | prop-src/src/constants/bands.js:5-13 | `nvisCapable` holds exactly for 160 m, 80 m and 40 m. |
| Bands.BandNamesDistinct | prop-src/src/constants/bands.js:4-14 | Band names are unique. |
| HamDb.FirstSeparator | prop-src/src/api/hamdb.js:41 | The position of the first `/` or `-`: no separator comes before it, and there is one at it unless it is the end. |
| HamDb.StripSuffixSingleLine | prop-src/src/api/hamdb.js:41 | On one line, the suffix replacement cuts the callsign at its first separator. |
| HamDb.StripSuffixChars | prop-src/src/api/hamdb.js:41 | After stripping no separator remains, and every character left comes from the input. |
| HamDb.StripSuffixIdentity | prop-src/src/api/hamdb.js:41 | A callsign without separators is left as it is. |
| HamDb.NormalizeIdempotent | prop-src/src/api/hamdb.js:41 | Normalising twice is normalising once, so a cache key is its own key. The lookup, the batch filter and the cached read therefore agree. |
| HamDb.NormalizeExample | prop-src/src/api/hamdb.js:41 | `w1aw/p` and `W1AW` normalise alike, and `dl1abc-7` normalises to `DL1ABC`. |
| HamDb.CutAtSeparator | prop-src/src/api/hamdb.js:41 | A single-line callsign followed by a suffix that starts with a separator normalises to the upper-cased callsign. |
| HamDb.ValidatedGrid | prop-src/src/api/hamdb.js:62 | Some exactly when the answer is non-empty and matches two letters A–R, two digits and optionally two letters A–X, in either case. The result is that answer upper-cased, of length 4 or 6, and it decodes. |
| HamDb.ValidatedGridExamples | prop-src/src/api/hamdb.js:62 | `NOT_FOUND`, a five-character locator and an out-of-range field letter are rejected. `fn31pr` becomes `FN31PR`. |
| HamDb.CachedGrid | prop-src/src/api/hamdb.js:99-103 | None for a missing call, an uncached key, or a cached null or empty locator. Otherwise the cached locator of the normalised key. |
| HamDb.LoadHamDbCache | prop-src/src/api/hamdb.js:5-22 | An empty cache when nothing is stored or parsing fails, and also when a stored entry is null. Otherwise exactly the entries whose time is present, non-zero and less than 30 days old, unchanged. |
| HamDb.Uncached | prop-src/src/api/hamdb.js:78-81 | The calls whose normalised key is not cached. The result is the `filter` of the calls by that test (`Common.Filter`), so it keeps their order and every repeated call. |
| HamDb.GridCache.constructor | prop-src/src/api/hamdb.js:33-37 | The cache starts as the loaded cache, with nothing pending. |
| HamDb.GridCache.Begin | prop-src/src/api/hamdb.js:40-53 | A cache hit returns the stored locator without marking anything. A key already pending gets the "null" answer. Otherwise the key is added to the pending set. The cache itself is unchanged. |
| HamDb.GridCache.Complete | prop-src/src/api/hamdb.js:55-73 | An OK answer is validated and cached with its arrival time, even when it is None. A failure leaves the cache alone. The key leaves the pending set on every path. |
| HamDb.GridCache.FetchGrid | prop-src/src/api/hamdb.js:40-74 | A whole lookup leaves the pending set as it found it. The cache changes exactly as `FetchEffect` says. The result is the cached locator, None for a pending key, or the validated answer. |
| HamDb.GridCache.FetchGridsForCallsigns | prop-src/src/api/hamdb.js:77-96 | Exactly the first 50 uncached calls, in input order, are looked up one after another. Progress reports 1, 2, …. The cache is the result of those lookups. |
| HamDb.GridCache.FetchEach | prop-src/src/api/hamdb.js:87-95 | The loop looks up each call of the batch in turn and reports the completed count after each. |
| HamDb.FetchAllKeepsEntries | prop-src/src/api/hamdb.js:44-65 | A lookup never replaces or removes a cache entry. |
| HamDb.FetchAllOnlyLooksUp | prop-src/src/api/hamdb.js:40-74 | Every new cache key is the key of a call that was looked up. |
| HamDb.FetchAllCachesAnswered | prop-src/src/api/hamdb.js:62-81 | A call that was not pending and got an OK answer is cached afterwards, even with a null locator, so the next batch does not select it. |
| Callsigns.PrefixToGrid | prop-src/src/utils/callsigns.js:3-27 | A lookup in the prefix table. Every value is a well-formed four-character locator, and it decodes to a point. |
| Callsigns.LongestPrefixGrid | prop-src/src/utils/callsigns.js:38 | None exactly when no prefix of 1..len characters is in the table. Otherwise the entry of the longest prefix that is. |
| Callsigns.GetGridFromCall | prop-src/src/utils/callsigns.js:29-40 | None for a missing or empty call. A cached locator of the normalised call wins. Otherwise the longest 3/2/1-character prefix match of the normalised call. A result is never empty. |
| Callsigns.GridFromCallDecodes | prop-src/src/utils/callsigns.js:29-40 | Without a cache entry, a locator found from the prefix table always decodes. |
| Callsigns.PortableSuffixIgnored | prop-src/src/utils/callsigns.js:31 | `w1aw/p` and `W1AW` resolve identically. |
| Callsigns.PrefixExampleVk2 | prop-src/src/utils/callsigns.js:20 | `VK2…` resolves to QF56 through its own three-character entry. |
| Callsigns.PrefixExampleVk5 | prop-src/src/utils/callsigns.js:20 | `VK5…` falls back to `VK` and resolves to QF22. |
| Callsigns.PrefixExampleUnknown | prop-src/src/utils/callsigns.js:38-39 | A call with no known prefix is not located. |
| Callsigns.SuffixOnlyNotLocated | prop-src/src/utils/callsigns.js:31-39 | A callsign that is only a suffix normalises to nothing and is not located. |
| Callsigns.RegionOf | prop-src/src/utils/callsigns.js:45 | Region table keys have one or two characters. Their values are non-empty and never "Unknown". |
| Callsigns.LongestPrefixRegion | prop-src/src/utils/callsigns.js:46 | None exactly when no prefix of 1..len characters is in the region table. Otherwise the region of the longest such prefix. |
| Callsigns.GetRegionFromCall | prop-src/src/utils/callsigns.js:42-48 | "Unknown" exactly for a missing or empty call. Otherwise the region of the longest known prefix of the upper-cased call, with its suffix kept, or else its first two characters. |
| Callsigns.RegionExamples | prop-src/src/utils/callsigns.js:42-48 | `aa1xyz` is in the USA. The suffix is not stripped, yet `VK2ABC/P` is in Australia by its prefix. An unknown prefix such as `xx9` shows its first two upper-cased characters. |
| Solar.BandRange | prop-src/src/api/solar.js:8-17 | Exactly the eight bands from 80 m to 10 m have a report range, and each range is one of the four report ranges. |
| Solar.GetBandCondition | prop-src/src/api/solar.js:19-25 | None when the report or its tables are missing, or for a band without a range. Otherwise the non-empty grade of the band's range in the day table by day and the night table by night, and None when that grade is missing or empty. |
| Solar.SharedRangeSameCondition | prop-src/src/api/solar.js:8-25 | Bands that share a report range always get the same grade. |
| Solar.CollectBandConditions | prop-src/src/api/solar.js:57-68 | The loop builds exactly the day and night tables `Conditions` defines over the report's band elements. |
| Solar.ConditionsLastWriter | prop-src/src/api/solar.js:57-68 | A name is in a table exactly when an element with non-empty name, matching time and non-empty text was recorded under it. Its grade is the text of the last such element. |
| Solar.ConditionsIgnores | prop-src/src/api/solar.js:61-67 | An element with another time, a missing attribute or empty text leaves a table as it was. |
| Ionosonde.GetMufColor | prop-src/src/api/ionosonde.js:2-12 | Total: always one of the nine band colours. |
| Ionosonde.GetMufBand | prop-src/src/api/ionosonde.js:14-24 | Total: always one of the nine labels. |
| Ionosonde.MufBandIsRank | prop-src/src/api/ionosonde.js:14-24 | The if-chain picks the label indexed by the number of thresholds the MUF reaches. |
| Ionosonde.MufBandMonotone | prop-src/src/api/ionosonde.js:14-24 | A larger MUF never yields a lower band. |
| Ionosonde.MufColorIsBandColor | prop-src/src/api/ionosonde.js:2-12 | The colour is the table colour of the band that the label names. |
| Ionosonde.MufColorFollowsLabel | prop-src/src/api/ionosonde.js:2-24 | Equal labels give equal colours, so the colour is a function of the label. |
| Ionosonde.LabelsDistinct | prop-src/src/api/ionosonde.js:14-24 | No two steps share a label. |
| Ionosonde.ThresholdsAreBandEdges | prop-src/src/api/ionosonde.js:2-12 | Each threshold is the lower edge, in MHz, of the band its step starts. Each label below the top one is that band's name. |
| Spots.SpotterPlacedByCall | prop-src/src/utils/propagation.js:108-109 | A spotter whose spot carries no locator is placed by its call. When the call is not in the locator cache, the spotter is placed exactly when the prefix table knows the call. |
| Spots.TxPlacedByCall | prop-src/src/utils/propagation.js:110-111 | The same for the transmitter, by its upper-cased call. |
| Clustering.Neighbors | prop-src/src/utils/propagation.js:11-17 | Exactly the other, not yet visited points within the threshold of `p`. |
| Clustering.ExpandCluster | prop-src/src/utils/propagation.js:19-28 | The expansion pushes `p` first and then only points not visited before, none twice. Each pushed point is within the threshold of an earlier one. Every point within the threshold of a pushed point is visited afterwards, and the visited set grows by exactly the pushed points. |
| Clustering.ClusterSpots | prop-src/src/utils/propagation.js:6-41 | No clusters for no points. Otherwise the clusters are non-empty and partition the points: each point is in exactly one cluster, once. Each cluster starts at its earliest point, and clusters are ordered by that point. Each cluster is linked, and every neighbour of a member lies in that cluster or an earlier one. |
| Clustering.Visit | prop-src/src/utils/propagation.js:30-38 | Visiting point `i` keeps the outer loop's facts: a point not visited yet starts a new cluster expanded from it. |
| Clustering.ClustersClosed | prop-src/src/utils/propagation.js:11-38 | With a symmetric distance, each cluster is closed: every point within the threshold of a member is a member. |
| Clustering.LinkedReachable | prop-src/src/utils/propagation.js:19-28 | Every member is reached from the cluster's first point by hops of at most the threshold, through members. |
| Clustering.PathWithin | prop-src/src/utils/propagation.js:19-28 | Constructs that hop path for a given member. |
| Clustering.PartitionSize | prop-src/src/utils/propagation.js:30-38 | Clusters that partition n points hold n entries in all. |
| Hull.LeftmostIndex | prop-src/src/utils/propagation.js:47-53 | The start vertex: no point is further west, or equally far west and further south. It is the first such point. |
| Hull.NextVertex | prop-src/src/utils/propagation.js:62-77 | The inner scan computes the successor of the current vertex. |
| Hull.SuccessorChoice | prop-src/src/utils/propagation.js:64-77 | With at least two points and a distance that is least from a point to itself, the successor is another point, and no point after it in the input turns further or lies collinear and further away. |
| Hull.ScanResult | prop-src/src/utils/propagation.js:64-77 | Unless the scan ends on the current vertex, no point scanned after the candidate beats it. |
| Hull.ScanMoves | prop-src/src/utils/propagation.js:64-77 | Once a later point has been seen, the scan never ends on the current vertex. |
| Hull.GiftWrap | prop-src/src/utils/propagation.js:55-80 | The outline starts at the start vertex and has at most 2n vertices, each a point. Each vertex is the successor of the one before and is not the start. When the step limit is not reached, the wrap closes back at the start. |
| Hull.ComputeConvexHull | prop-src/src/utils/propagation.js:44-83 | Fewer than three points are returned as they are. Otherwise the outline has 1..2n input points, starts at the westmost (then southmost) point, and follows successors. |
| Propagation.ClassifySpot | prop-src/src/utils/propagation.js:103-137 | A spot contributes exactly when it is on a band and either it is outbound with a placed spotter or it is inbound with a placed transmitter. Outbound means the transmitter is placed and is the observer or within the radius. Inbound means not outbound and the spotter within the radius. The point is the spotter (outbound) or the transmitter (inbound), with the SNR or 0. |
| Propagation.OutboundNotRetried | prop-src/src/utils/propagation.js:120-135 | An outbound spot whose spotter cannot be placed is dropped and not retried as inbound. |
| Propagation.OwnCallOutbound | prop-src/src/utils/propagation.js:120-126 | The observer's own placed transmissions are outbound at any distance. |
| Propagation.GroupSpots | prop-src/src/utils/propagation.js:103-146 | The grouping dictionary has one entry per (band, direction) key, in order of first appearance. Each entry holds that key's points in spot order, and as many spots. |
| Propagation.AddToGroup | prop-src/src/utils/propagation.js:137-145 | One classified spot creates its group on first sight, appends its point and increments the count. |
| Propagation.CentroidWithin | prop-src/src/utils/propagation.js:153-156 | The centre, the mean latitude and longitude, lies in every box that holds all of the cluster's points. |
| Propagation.Centroid | prop-src/src/utils/propagation.js:153-156 | The mean latitude and longitude of the points. Points that all lie at one place have that place as their centre. |
| Propagation.MaxSnr | prop-src/src/utils/propagation.js:161 | The best SNR is the largest SNR of the points, and some point has it. |
| Propagation.BuildCluster | prop-src/src/utils/propagation.js:151-164 | A cluster summary holds the selected points, one spot per point, the maximum SNR and the mean position. Its outline is drawn through its own points, starts at the westmost one and is at most twice as long. It starts unflagged. |
| Propagation.BuildZone | prop-src/src/utils/propagation.js:149-172 | A group's zone: its clusters partition the group's points, each is summarised, and the spots of the clusters add up to the group's spot count. |
| Propagation.BuildZones | prop-src/src/utils/propagation.js:149-173 | One zone per group, in key order, all clusters unflagged. |
| Propagation.FindZone | prop-src/src/utils/propagation.js:178-179 | `zones.find`: the first zone of the band and direction, or none. |
| Propagation.MarkAgainst | prop-src/src/utils/propagation.js:183-192 | An inbound cluster against every outbound cluster: a close pair flags both. Nothing else changes. |
| Propagation.MarkPair | prop-src/src/utils/propagation.js:182-193 | One band's pass flags exactly the clusters of the close pairs between its inbound and outbound zones. |
| Propagation.MarkBidirectional | prop-src/src/utils/propagation.js:176-194 | The pass over the band table: a cluster ends flagged exactly when it was flagged before or some band's pass flags it. Only flags change. |
| Propagation.MarkedIffPartnered | prop-src/src/utils/propagation.js:176-194 | With one zone per band and direction, the pass flags a cluster exactly when a cluster of the opposite direction on its band has its centre within 1500 km. |
| Propagation.PartneredMarkedOwnBand | prop-src/src/utils/propagation.js:177-194 | A cluster with a partner is flagged by the pass for its own band. |
| Propagation.MarkedPartnered | prop-src/src/utils/propagation.js:182-192 | A flag is only ever set on a cluster with a partner. |
| Propagation.BuildPropagationZones | prop-src/src/utils/propagation.js:96-197 | The zones are one per (band, direction), in order of first appearance. Each counts its key's points, summed over its clusters. Every cluster is summarised. A cluster is bidirectional exactly when it has a partner. |
| Propagation.ZonesFlagged | prop-src/src/utils/propagation.js:176-194 | After the pass over unflagged zones, a cluster is flagged exactly when it has a partner. |
| Propagation.NearCluster | prop-src/src/utils/propagation.js:203-205 | Some cluster centre lies within 1500 km of the station. |
| Propagation.IsStationInZone | prop-src/src/utils/propagation.js:200-206 | True exactly when some cluster of some zone of the band has its centre within 1500 km of the station. |
| Propagation.ProximityCoords | prop-src/src/utils/propagation.js:88-89 | The spot's own locator if it has one, else its spotter's, else none. |
| Propagation.FilterByProximity | prop-src/src/utils/propagation.js:86-93 | Every kept spot is placed within the radius, and every such spot is kept. The result is the `filter` of the spots by that test (`Common.Filter`), in spot order and with every copy. |
| Propagation.StrongClusters | prop-src/src/App.jsx:342 | Exactly the clusters whose best SNR reaches the minimum. The result is their `filter` (`Common.Filter`), in order and with every copy. |
| Propagation.KeepStrong | prop-src/src/App.jsx:340-343 | Each zone keeps its strong clusters. A zone left with no clusters is dropped, and no other zone is. |
| Propagation.KeepStrongInOrder | prop-src/src/App.jsx:340-343 | The zone filter is the source's `map` then `filter`: each zone with its strong clusters, in zone order, kept exactly when a cluster is left. |
| Propagation.FilterZonesBySnr | prop-src/src/App.jsx:338-344 | A minimum of zero or less keeps the zones as they are. Otherwise every zone left has clusters, all strong, and every zone with a strong cluster survives with just those. The zones are the `map` then `filter` of the source, in order. |
| Dedup.KeyOfSpot | prop-src/src/App.jsx:274 | The rounded frequency is a multiple of 10 within 5 kHz of the frequency. The call part is present exactly when the spot has a callsign. |
| Dedup.Deduplicate | prop-src/src/App.jsx:272-281 | One spot per key, in order of the key's first appearance. Each is the spot `KeptFor` says. |
| Dedup.MergeSpot | prop-src/src/App.jsx:273-278 | One loop step keeps the map and key order in agreement with the spots merged so far. |
| Dedup.KeptSpot | prop-src/src/App.jsx:275-278 | A spot is kept for a key exactly when some spot has the key. It has a locator exactly when some spot of the key has one. It is the first spot of the key that has a locator, or the first spot of the key when none has one. |
| Dedup.ShownSpots | prop-src/src/App.jsx:269-290 | No spots at all gives the four demonstration spots. Otherwise the deduplicated spots, which are never empty. |
| Dedup.DemoSpotsDistinct | prop-src/src/App.jsx:285-290 | The demonstration spots have four distinct keys. |
| Antennas.AntennaFor | prop-src/src/App.jsx:489 | The band's saved pair of flags, or no antenna. |
| Antennas.Convert | prop-src/src/App.jsx:93-97 | Standard exactly for "lowAngle" or "both"; NVIS exactly for "nvis" or "both". |
| Antennas.PerBand | prop-src/src/App.jsx:92-98 | One entry per table band, in table order. |
| Antennas.RestoreAntennas | prop-src/src/App.jsx:84-108 | Saved settings in the current format are used as they are. |
| Antennas.NothingSavedNoAntenna | prop-src/src/App.jsx:103-107 | With nothing saved, no band has an antenna. |
| Antennas.LegacyMigrated | prop-src/src/App.jsx:85-99 | Old-format settings: each band gets a standard antenna exactly for a saved "lowAngle" or "both", and NVIS exactly for "nvis" or "both". A missing choice counts as "none". |
| Workability.SkipZoneApplies | prop-src/src/App.jsx:504-520 | In the skip zone exactly when min ≤ distance ≤ max and not (NVIS antenna, NVIS-capable band and distance ≤ 500 km). |
| Workability.BaseStatus | prop-src/src/App.jsx:525-533 | Should exactly when not in the skip zone, with evidence and SNR ≥ 10. Might exactly when not in the skip zone, with evidence and 5 < SNR < 10. Otherwise unlikely, never unavailable. |
| Workability.ApplyConditions | prop-src/src/App.jsx:536-551 | No grade changes nothing. A present grade is always recorded. |
| Workability.ConditionsNeverPromote | prop-src/src/App.jsx:536-551 | Grades never improve a status. Exactly the grades other than good and fair (any case) degrade it. "poor" turns should into might and anything else into unlikely. Every worse grade gives unlikely. |
| Workability.ConditionsCaseInsensitive | prop-src/src/App.jsx:538 | Only the lower-cased grade matters. |
| Workability.ClassifyBand | prop-src/src/App.jsx:489-551 | Unavailable exactly without an antenna, and then no skip zone, no degradation and no grade. With an antenna, the skip-zone test decides the skip zone. Status, degradation and recorded grade are then those of `ApplyConditions` applied to `BaseStatus` of the evidence, so the lemmas on those two carry over. Should needs evidence and SNR ≥ 10, might needs evidence and SNR > 5. |
| Workability.GoodConditionsKeepBase | prop-src/src/App.jsx:504-551 | With an antenna and a good, fair or missing grade, the status is the status from the evidence alone. |
| Workability.Factors | prop-src/src/App.jsx:348-418 | The SNR line comes first, then the nearby line. The other kinds follow in the fixed order zone, conditions, skip zone, antenna. |
| Workability.FactorsShape | prop-src/src/App.jsx:352-397 | The SNR line is positive exactly from 10 dB. There is exactly one nearby line, positive exactly when a nearby spotter is named. A zone line appears exactly when the band is in a zone, and a conditions line exactly when a grade is recorded. |
| Workability.FactorsWarnings | prop-src/src/App.jsx:399-418 | A skip-zone line appears exactly in the skip zone, and an antenna line exactly without an antenna. |
| Workability.PrimaryReason | prop-src/src/App.jsx:420-437 | The headline follows the priority no antenna > skip zone > degraded > weak unlikely signal (< 5 dB) > unlikely with no evidence > nearby spotter with a call > SNR. Each headline is given exactly when its own test holds and every earlier test fails. The weak-signal and SNR headlines carry the best SNR, and the nearby headline carries the recorded call. |
| Workability.NoEvidenceHeadline | prop-src/src/App.jsx:427-430 | An unlikely band of at least 5 dB with no evidence, no degradation and no skip zone is always headed "No nearby spotters". |
| SpotGroups.KeepSpotters | prop-src/src/App.jsx:446-449 | Exactly the spots whose upper-cased spotter is listed. The result is the `filter` of the spots by that test (`Common.Filter`), in spot order and with every copy. |
| SpotGroups.FilterBySpotter | prop-src/src/App.jsx:445-450 | An empty filter keeps every spot. Otherwise the `filter` of the spots by the listed-spotter test (`Common.Filter`), in spot order and with every copy. |
| SpotGroups.CallKey | prop-src/src/App.jsx:452 | A spot has a station key exactly when its callsign is present and non-empty, and then the key is the upper-cased callsign. |
| SpotGroups.CallKeys | prop-src/src/App.jsx:452 | The station keys are exactly the keys of some spot. |
| SpotGroups.SpotsOfCall | prop-src/src/App.jsx:452 | A station's spots are exactly the spots with its key. The result is the `filter` of the spots by that key (`Common.Filter`), in spot order and with every copy. |
| SpotGroups.GroupByCall | prop-src/src/App.jsx:452 | The keys of `spotsByCall` in order of first appearance, each with exactly its spots in order. |
| SpotGroups.AddSpot | prop-src/src/App.jsx:452 | One step: a spot without a key is skipped. Otherwise it is appended to its station, which is created when new. |
| SpotGroups.StationsHaveSpots | prop-src/src/App.jsx:452 | Every grouped station has at least one spot. |
| BandAnalysis.SpotBand | prop-src/src/App.jsx:463 | None exactly when no table band contains the frequency. Otherwise a table band that contains it, and the only one. |
| BandAnalysis.SpotterDistance | prop-src/src/App.jsx:468-472 | A distance exactly when the spotter can be placed, and then it is the distance from the user to the spotter's position. |
| BandAnalysis.Step | prop-src/src/App.jsx:465-478 | One spot keeps the band. It raises the best SNR to its own SNR when that is higher. It marks the band as heard nearby exactly when the spotter is within the radius. The recorded spotter changes only to a nearby one, and it always changes when none with a call is recorded yet. A null recorded distance compares as 0, as JavaScript's `d < null` does. |
| BandAnalysis.Analysis | prop-src/src/App.jsx:462-481 | A band has an accumulation exactly when one of the station's spots falls in it, and the accumulation is for that band. |
| BandAnalysis.BandNames | prop-src/src/App.jsx:463-464 | The bands named are exactly those a spot falls in. |
| BandAnalysis.BandMap | prop-src/src/App.jsx:461-481 | The map holds exactly the bands a spot falls in, each with its accumulation. |
| BandAnalysis.AnalyseBands | prop-src/src/App.jsx:461-481 | The loop builds `bandAnalysis`: bands in order of first appearance, each with its accumulation. |
| BandAnalysis.AnalyseSpot | prop-src/src/App.jsx:462-481 | One step: a spot outside every band is skipped. Otherwise its band, fresh when new, takes the spot. |
| BandAnalysis.AnalysisAppend | prop-src/src/App.jsx:463-479 | One more spot changes only its own band's accumulation. |
| BandAnalysis.BestSnrIsMax | prop-src/src/App.jsx:466 | A band's best SNR is the largest reported SNR of its spots, or −999 when none reports one. |
| BandAnalysis.NearbyRecorded | prop-src/src/App.jsx:471-479 | A band is heard nearby exactly when one of its spotters is within the radius. Exactly then a call and a distance are recorded, both from one such spot. |
| BandAnalysis.NearestSpotter | prop-src/src/App.jsx:475-478 | When every nearby spotter has a call, the recorded spotter is a nearest one, and the first of several equally near. |
| Stations.Assess | prop-src/src/App.jsx:482-554 | In a zone exactly when the station is within 1500 km of a cluster centre of the band. The verdict is `ClassifyBand` of the band's antenna, the distance, the evidence (nearby or in a zone), the best SNR and the band's grade. An explanation is given exactly for a band with an antenna, and it is the `PrimaryReason` headline with the `Factors` lines of those facts. |
| Stations.BestIsFirstMax | prop-src/src/App.jsx:497-556 | The best SNR is the largest over the bands, unavailable ones included, or −999. A best band is recorded exactly above −999, and it is the first band to reach it. |
| Stations.BestOf | prop-src/src/App.jsx:497-556 | The running best over the bands in order. The best SNR never falls below −999, and a best band is recorded exactly when it rises above −999. |
| Stations.OverallStatus | prop-src/src/App.jsx:559-560 | Should exactly when some band is should. Might exactly when none is should and some is might. Otherwise unlikely. |
| Stations.OverallIsBest | prop-src/src/App.jsx:559-560 | The overall status ranks at least as high as every available band's status, and is unlikely or one of them. |
| Stations.StationGrid | prop-src/src/App.jsx:454-456 | A locator on the first spot (`grid`, else `dx_grid`) always wins. Without one, the station is placed where its callsign resolves. |
| Stations.StationPlacement | prop-src/src/App.jsx:454-457 | Only the first spot places a station. Without a locator on that spot and without a cache entry for the call, the station is placed exactly when the prefix table knows the call. |
| Stations.ResultsOf | prop-src/src/App.jsx:482-557 | Each band heard on has its assessment. |
| Stations.BandResults | prop-src/src/App.jsx:461-557 | Exactly the bands heard on, each once. Each carries the accumulation of the station's spots in it and the assessment at the station's distance. |
| Stations.StationOf | prop-src/src/App.jsx:454-561 | A station exactly when its locator decodes. It then carries its call, its locator, the decoded position, the region of its call, the count of all its spots and its band results. It also meets `Summarises` at the distance from the user: overall status from the bands, first best band and its SNR (0 when none), and the distance rounded to whole km. |
| Stations.MakeStation | prop-src/src/App.jsx:561 | The record carries the call, locator, position and region of the call. `Summarises` holds: should exactly when some band is should, might exactly when none is should and some is might, otherwise unlikely. The best band is the first band with the largest SNR. A best SNR of −999 is shown as 0. The distance is rounded to the nearest km. |
| Common.RoundHalfUp | prop-src/src/App.jsx:561 | `Math.round`: the integer within half a unit of the value, with halves rounded up. |
| Common.Filter | prop-src/src/App.jsx:446-449 | `Array.prototype.filter`: the result is no longer than the input, and holds exactly the elements that pass. |
| Common.FilterAppend | prop-src/src/App.jsx:446-449 | The filter of a concatenation is the concatenation of the filters, so the order is kept. |
| Common.FilterCount | prop-src/src/App.jsx:446-449 | An element that passes keeps every copy, and one that fails keeps none. |
| Stations.ClassifyStation | prop-src/src/App.jsx:454-562 | Computes `StationOf`: placement, band accumulation, then one pass over the bands. |
| Stations.AssessBands | prop-src/src/App.jsx:482-557 | The pass over the bands yields every band's result and the first best SNR. |
| Stations.StationData | prop-src/src/App.jsx:442-563 | No stations without the user's position. Otherwise one station per placed callsign of the filtered spots, in order of first appearance. |
| Stations.AddStation | prop-src/src/App.jsx:454-562 | One step appends the station of a callsign when it can be placed. |
| Stations.StationListFacts | prop-src/src/App.jsx:454-562 | Each station is for one of the keys and carries all its spots (at least one). It is never unavailable overall and no callsign appears twice. A key is listed exactly when it can be placed. |
| Ranking.InsertDesc | prop-src/src/App.jsx:574 | Insertion adds exactly the element: a permutation of the input plus it. |
| Ranking.InsertSorted | prop-src/src/App.jsx:574 | Insertion keeps a descending sequence descending. |
| Ranking.InsertStable | prop-src/src/App.jsx:574 | Insertion places the element after all those of equal key. |
| Ranking.SortDesc | prop-src/src/App.jsx:574 | The sort is a permutation of its input. |
| Ranking.SortDescFacts | prop-src/src/App.jsx:574 | The comparator `b - a` sort is descending, a permutation, and stable: it keeps the input order among equal keys. |
| Ranking.FilteredStations | prop-src/src/App.jsx:565-569 | The filter never adds stations. |
| Ranking.FilteredCount | prop-src/src/App.jsx:566-567 | A station is kept, with every copy, exactly when its upper-cased call is not the user's, it has spots, and, with a chosen band, it was heard on that band and the band is not unavailable. |
| Ranking.FilteredAppend | prop-src/src/App.jsx:566-567 | The filter keeps the stations' order. |
| Ranking.FilteredBuckets | prop-src/src/App.jsx:566-573 | Every station left by the filter lands in one of the three buckets. |
| Ranking.InBucket | prop-src/src/App.jsx:573 | A bucket holds only stations of its status. |
| Ranking.BucketsPartition | prop-src/src/App.jsx:572-573 | The three buckets share out the stations. |
| Ranking.GroupStations | prop-src/src/App.jsx:571-576 | Each bucket is the sorted stations of its status. Together the buckets are a permutation of the input, and each is sorted by best SNR, highest first. |
| Ranking.SortedBucket | prop-src/src/App.jsx:574 | A sorted bucket is sorted and holds only its status. |
| Ranking.SpotterKeys | prop-src/src/App.jsx:583-585 | The counted keys are exactly the non-empty upper-cased spotters. |
| Ranking.SpotterKeysFiltered | prop-src/src/App.jsx:583-585 | The keys are the spotter keys of all the spots, filtered to the non-empty ones: one per such spot, in spot order. |
| Ranking.CountSpotters | prop-src/src/App.jsx:582-586 | The counting loop: keys in order of first appearance, each with the number of spots it made. |
| Ranking.CountSpot | prop-src/src/App.jsx:584-585 | One step: an empty spotter is skipped. Otherwise its count rises by one, starting from 1. |
| Ranking.SpotterEntries | prop-src/src/App.jsx:587-588 | One entry per spotter heard, with no repeats. Each has its positive count. |
| Ranking.ActiveSpotters | prop-src/src/App.jsx:581-590 | The spotter entries in stable descending order of count. |
| Ranking.SpotterList | prop-src/src/App.jsx:581-590 | Each spotter heard is named exactly once with its count. Highest counts come first, and equal counts stay in order of first appearance. |

## Left out

- **Distances and floating point.**
  - Great-circle distance (`haversineDistance`) is a parameter.
  - `getBearing`, the slerp arithmetic of `getGreatCirclePath` and `mercatorY` are left out; the latter two enter only as inputs.
  - Every other real is exact, not IEEE double. This affects `RoundHalfUp` in the dedup key and the distance shown for a station.
- **Inputs instead of computations.** `isDaytime` (a clock and a longitude) is a boolean input. The user's position is an input, and the default position used when the user's locator does not decode is not part of this model.
- **I/O and timers.**
  - Not modelled: every network request, the XML parsing of both feeds and of the solar report, `localStorage`, `saveHamDbCache`, `setInterval`, and the 100 ms delay between HamDB requests.
  - The stored HamDB cache, the server's answer per key and the current time are parameters.
  - The solar loop runs over a list of already extracted band elements.
- **HamDB concurrency.**
  - `HamDb.GridCache.Begin` and `HamDb.GridCache.Complete` model the two halves of one lookup around its `await`.
  - `HamDb.GridCache.FetchGrid` and the batch run them back to back, so lookups from concurrent batches are never interleaved.
  - A response whose body fails to parse is modelled as `Failed`.
- **Case mapping.** `toUpperCase`/`toLowerCase` are modelled on ASCII letters only.
- **Object key order.** The keys of a JavaScript object are modelled in order of first insertion (`Distinct`). A callsign that looks like an array index (all digits) would be listed first by `Object.entries`. That affects the order of `Stations.StationData` and `Ranking.ActiveSpotters` only.
- Dedup.KeyOfSpot: the key is kept as the pair (call, rounded frequency) rather than as the joined string. The joined string could make two pairs collide only with a negative frequency after a callsign that ends in `-`.
- Dedup.ShownSpots: the demonstration spots are shown when the feeds return no spots. In the program they are also shown when fetching or parsing throws; that failure is not modelled.
- **SNR values.** A null SNR is not distinguished from a missing one. JavaScript would rank null as 0 against −999.
- **Antenna settings.** Saved flags are booleans and saved legacy choices are strings. Other JSON values in the stored settings are not modelled.
- **Explanation text.**
  - Not modelled: the explanation text, the factor values and the WPM figures.
  - The last two headline branches (`SNR …` from 10 dB, and below it) produce the same text. Both are modelled as `SnrReason`.
  - Each band's list of spots (`ba.spots`) is not kept; only the WPM figure reads it.
- Hull.ComputeConvexHull: proves the start vertex, the successor rule, the length bound and closure, but not that the outline is convex. Points are indices, as the program compares them by identity.
- Clustering.ClustersClosed: closure needs a symmetric distance, which is assumed as a precondition.
- Hull.SuccessorChoice: assumes that no point is nearer to a point than that point itself (`Hull.SelfNearest`), as a precondition. `Hull.ScanMoves` assumes the same. The haversine distance meets it, since the distance from a point to itself is 0 and no distance is negative.
- Ranking.GroupStations: requires that no station is bucketed as unavailable. The program would throw there, and the station filter already rules that case out (`Ranking.FilteredBuckets`).
- Ranking.FilteredStations: the program's two successive filters are one conjunction here. Filtering is order-preserving, so the result is the same.
- **Not modelled:** `activeBands` (`App.jsx` line 578) and the React rendering.
- BandAnalysis.NearestSpotter: the nearest-spotter property needs every nearby spotter to have a call. A spotter with an empty call does not block a later one from replacing it, as in the program, and that case is covered only by `BandAnalysis.NearbyRecorded`.
- HamDb.GridCache.constructor: its contract leaves out the case of a stored null entry, in which the cache starts empty. `HamDb.LoadHamDbCache` states that case.
