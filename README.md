# proyecto-balistica in Dafny

A model of the computational core of *proyecto-balistica*, a Go service that extracts
numeric features from images of cartridge cases and bullets, compares and classifies
them, caches results and stores analyses. The model covers:

- the two-tier result cache (memory tier with a recency list and byte counter, disk tier as a
  timestamped map) and its periodic sweep (`Cache`);
- the whole-image pixel algorithms: grey-level co-occurrence counting, shape counting,
  bounding-box aspect ratio, the Sobel operator and the edge map (`Imaging`);
- the parallel region pipeline: band partition, per-band statistics, reassembly by job id,
  merging, and the feature cache keyed by file name and size (`Pipeline`);
- the advanced comparison of two feature maps: common features, weighted similarity,
  Jaccard index, distances, group scores, confidence and the match decision (`Comparison`);
- weapon and caliber detection: the scorers, the argmax classification, the labellers and
  derived metrics (`Detector`);
- the classification service: overall score, recommendations, indicator and evidence
  merging, and the classify/save flow (`Classification`);
- the pure helpers of the HTTP handlers: indicator merging, averages, analysis
  confidence, feature differences, weighted comparison, basic confidence, weight
  conversion and pagination parsing (`Handlers`);
- similarity search over stored analyses and the dashboard statistics merge (`Storage`);
- the HTTP cache middleware's decisions (`Middleware`);
- configuration defaulting (`Configuration`);
- colour packing and the model constructors (`Models`);
- shared definitions: options and results, exact-or-NaN/Inf division, sums over sets,
  decimal printing and parsing (`Common`).

Go's `float64` is modelled as exact `real`; `time.Duration` and timestamps as integer
nanoseconds, with the clock passed in as `now`. Where the Go code iterates over a map, the
model picks keys nondeterministically, so every property holds for every iteration order.
Imperative Go code (the caches, pixel loops, accumulation loops, `setDefaults`) is modelled
by Dafny methods and classes proved against specification functions. The properties are
stated about those functions.

## Model

| member | source | states |
|---|---|---|
| Cache.RemoveFirstNoDup | internal/services/cache/cache_service.go:300-307 | removing a key from a duplicate-free recency list keeps it duplicate-free and removes exactly that key |
| Cache.TouchFront | internal/services/cache/cache_service.go:294-298 | after updateLRU the key is first, the other keys follow in their previous order, and no duplicate appears |
| Cache.EvictOneKeeps | internal/services/cache/cache_service.go:309-320 | evictLRU drops the last list key from both the list and the map, subtracts its size, and keeps list/map agreement |
| Cache.EvictForFacts | internal/services/cache/cache_service.go:253-257 | the eviction loop keeps the invariant, evicts only from the tail, keeps the surviving entries unchanged, and stops once the new entry fits or the list is empty |
| Cache.PutKeeps | internal/services/cache/cache_service.go:259-271 | storing an entry keeps the invariant and puts the key first |
| Cache.SetFacts | internal/services/cache/cache_service.go:247-272 | after set the key is first and maps to a fresh entry with zero hits; the invariant holds; other surviving entries are unchanged |
| Cache.GetFacts | internal/services/cache/cache_service.go:226-245 | get misses exactly on an absent or expired key and removes an expired one; a hit returns the data, adds one hit and moves the key to the front; the byte counter never changes |
| Cache.DeleteFacts | internal/services/cache/cache_service.go:274-283 | deleting an absent key changes nothing; deleting a present key removes it and subtracts its size |
| Cache.SweepFacts | internal/services/cache/cache_service.go:437-445 | the sweep removes exactly the entries older than their TTL, subtracting their sizes, and keeps the other entries and the list order |
| Cache.ClearedKeeps | internal/services/cache/cache_service.go:285-292 | the cleared state (empty map, empty list, zero bytes) satisfies the invariant |
| Cache.OverwriteOvercounts | internal/services/cache/cache_service.go:262-271 | overwriting a key adds the new size without subtracting the old one, so the counter exceeds the bytes held |
| Cache.MemoryCache.constructor | internal/services/cache/cache_service.go:85-89 | a new memory tier is empty, with capacity maxMemoryMB·1024·1024 bytes |
| Cache.MemoryCache.Get | internal/services/cache/cache_service.go:226-245 | the value and new state are those of the get specification |
| Cache.MemoryCache.Set | internal/services/cache/cache_service.go:247-272 | the new state is that of the set specification (eviction loop, then store at the front) |
| Cache.MemoryCache.Delete | internal/services/cache/cache_service.go:274-283 | the new state is that of the delete specification |
| Cache.MemoryCache.Clear | internal/services/cache/cache_service.go:285-292 | the map and list are empty and the counter is 0 |
| Cache.MemoryCache.UpdateLRU | internal/services/cache/cache_service.go:294-298 | the list becomes the key followed by the list without it; the map and counter are unchanged |
| Cache.MemoryCache.RemoveLRU | internal/services/cache/cache_service.go:300-307 | the first occurrence of the key is cut from the list; the map and counter are unchanged |
| Cache.MemoryCache.EvictLRU | internal/services/cache/cache_service.go:309-320 | the new state is that of evicting the least recent key |
| Cache.MemoryCache.Sweep | internal/services/cache/cache_service.go:437-445 | the new state is the sweep specification's: expired entries removed from map and list with their sizes |
| Cache.MemoryCache.GetStats | internal/services/cache/cache_service.go:322-336 | the statistics hold the total hits, the counter in megabytes and the entry count |
| Cache.DiskCache.constructor | internal/services/cache/cache_service.go:80-95 | a new disk tier is an existing, empty directory |
| Cache.DiskCache.Get | internal/services/cache/cache_service.go:339-365 | an absent file misses; a file older than the TTL is removed and misses; otherwise the entry is returned |
| Cache.DiskCache.Set | internal/services/cache/cache_service.go:367-385 | the entry is written with the current time and TTL when the directory exists, and the write fails otherwise |
| Cache.DiskCache.Delete | internal/services/cache/cache_service.go:387-393 | the key's file is removed |
| Cache.DiskCache.Clear | internal/services/cache/cache_service.go:395-400 | the directory and every file are gone |
| Cache.DiskCache.Sweep | internal/services/cache/cache_service.go:447-455 | every file older than the disk TTL is removed and the others stay |
| Cache.DiskCache.GetStats | internal/services/cache/cache_service.go:407-426 | the statistics hold the file count and the bytes in megabytes, and no hits |
| Cache.DiskKeeps | internal/services/cache/cache_service.go:339-400 | every disk operation keeps the invariant that a missing directory holds no files |
| Cache.DiskSetThenGet | internal/services/cache/cache_service.go:339-385 | an entry written at t0 into an existing directory is found at t1 whenever t1 − t0 ≤ TTL; without the directory nothing is found |
| Cache.ServiceStats | internal/services/cache/cache_service.go:176-195 | merged statistics add the entry counts and take the memory tier's and the disk tier's megabyte usage; the hit ratio is in [0, 1], is 1 with hits and no misses, and 0 with no requests |
| Cache.CacheService.constructor | internal/services/cache/cache_service.go:72-108 | a new service has an empty memory tier of the configured capacity and an empty disk directory |
| Cache.CacheService.Get | internal/services/cache/cache_service.go:111-133 | when disabled it misses and changes nothing; otherwise memory is asked first, then disk within the disk TTL, and a disk hit is stored in memory |
| Cache.CacheService.Set | internal/services/cache/cache_service.go:136-155 | when disabled nothing changes; otherwise the memory tier is set under the memory TTL and the disk tier written |
| Cache.CacheService.Delete | internal/services/cache/cache_service.go:158-168 | when enabled the key leaves both tiers; when disabled nothing changes |
| Cache.CacheService.Clear | internal/services/cache/cache_service.go:199-206 | when enabled both tiers are emptied and the directory removed; when disabled nothing changes |
| Cache.CacheService.GetStats | internal/services/cache/cache_service.go:171-196 | disabled gives empty statistics; enabled gives the total memory hits, both tiers' entry counts, no disk hits or misses, the hit ratio 1 or 0, the memory counter in megabytes and the disk byte total in megabytes |
| Cache.CacheService.CleanupExpiredEntries | internal/services/cache/cache_service.go:429-457 | one cleanup round sweeps the memory tier by entry TTL and the disk tier by the disk TTL |
| Cache.PromotedHitIsWrapped | internal/services/cache/cache_service.go:122-129 | a disk hit stores the disk entry wrapper in memory, so an immediate second Get returns the wrapper rather than the data |
| Imaging.NeighboursForeground | internal/services/image_processor/image_processor.go:310-320 | the neighbour scan is true exactly when every listed neighbour is foreground (grey level below 128) |
| Imaging.IsEdgePixel | internal/services/image_processor/image_processor.go:305-321 | a pixel is an edge exactly when it is foreground and some 4-neighbour, possibly outside the bounds, is not |
| Imaging.BoxInFacts | internal/services/image_processor/image_processor.go:326-351 | the bounding-box scan keeps the sentinel bounds when no pixel is foreground; otherwise the box lies inside the image and encloses every foreground pixel |
| Imaging.GlcmOfAdd | internal/services/image_processor/image_processor.go:281 | one more occurrence of a pair is one increment of its count (a missing pair starts at 1) |
| Imaging.GlcmOfTotal | internal/services/image_processor/image_processor.go:261-267 | the counts of a table built from a bag of pairs sum to the number of pairs |
| Imaging.PairBagSize | internal/services/image_processor/image_processor.go:276-284 | the counting loops visit one pair per pixel position and offset |
| Imaging.CountSumPositive | internal/services/image_processor/image_processor.go:261-267 | a table is empty exactly when its counts sum to 0, and the sum is never negative |
| Imaging.SumGlcm | internal/services/image_processor/image_processor.go:261-267 | sumGLCM returns the sum of all counts, and 0 exactly for an empty table |
| Imaging.CalculateContrast | internal/services/image_processor/image_processor.go:229-236 | the loop computes the count-weighted squared level difference divided by the total, NaN for an empty table |
| Imaging.CalculateEnergy | internal/services/image_processor/image_processor.go:239-247 | the loop computes the sum of squared probabilities, 0 for an empty table |
| Imaging.CalculateHomogeneity | internal/services/image_processor/image_processor.go:250-258 | the loop computes the counts damped by 1 + squared difference divided by the total, NaN for an empty table |
| Imaging.ContrastRange | internal/services/image_processor/image_processor.go:229-236 | contrast of a non-empty table is finite and non-negative |
| Imaging.HomogeneityRange | internal/services/image_processor/image_processor.go:250-258 | homogeneity of a non-empty table is finite and in (0, 1] |
| Imaging.EnergyRange | internal/services/image_processor/image_processor.go:239-247 | energy of a non-empty table is in (0, 1] |
| Imaging.TextureRanges | internal/services/image_processor/image_processor.go:229-258 | the unguarded divisions give NaN contrast and homogeneity (and energy 0) for an empty table; otherwise all three are in range |
| Imaging.UniformTexture | internal/services/image_processor/image_processor.go:229-258 | a table holding only one equal-level pair has contrast 0, homogeneity 1 and energy 1 |
| Imaging.CountPixelPairs | internal/services/image_processor/image_processor.go:279-282 | the offset loop adds one count per offset to the table of the pairs seen so far |
| Imaging.CountRowPairs | internal/services/image_processor/image_processor.go:277-283 | the column loop adds the pairs of one row |
| Imaging.FourOffsetRowsEnd | internal/services/image_processor/image_processor.go:273-284 | once every row is counted the table is that of the whole pair grid and holds 4·(W−1)·(H−1) counts |
| Imaging.CountFourOffsetPairs | internal/services/image_processor/image_processor.go:271-284 | the loops build exactly the table of every pair visited, holding 4·(W−1)·(H−1) counts |
| Imaging.CalculateGLCMFeatures | internal/services/image_processor/image_processor.go:270-292 | the result is [contrast, energy, homogeneity] of that table; an image one pixel wide or high gives NaN contrast and homogeneity; otherwise energy and homogeneity are in (0, 1] |
| Imaging.CountShape | internal/services/image_processor/image_processor.go:364-377 | area counts the foreground pixels, perimeter the edge pixels, and perimeter ≤ area |
| Imaging.CountShapeRow | internal/services/image_processor/image_processor.go:368-375 | the column loop adds the foreground and edge pixels of one row |
| Imaging.CalculateAspectRatio | internal/services/image_processor/image_processor.go:324-360 | the ratio is the scanned box's width over its height (0 for height 0); with no foreground pixel the sentinel bounds give W/H; it is never negative |
| Imaging.CalculateShapeFeatures | internal/services/image_processor/image_processor.go:363-384 | circularity is 4π·area/perimeter² without a guard: NaN with no area, +Inf with area but no perimeter, positive otherwise; the aspect ratio is the scanned one |
| Imaging.ExtractLocalFeatures | internal/services/image_processor/image_processor.go:160-175 | exactly the five local keys; contrast, energy and homogeneity are those of the four-offset table of the whole image, circularity and aspect ratio those of its foreground; energy and aspect ratio are finite; it never fails |
| Imaging.HuKeyInjective | internal/services/image_processor/image_processor.go:109-111 | different moment indices give different hu_moment keys |
| Imaging.HuKeyFresh | internal/services/image_processor/image_processor.go:109-142 | no hu_moment key clashes with a named key of the Python branch or a local key |
| Imaging.KeyGroupsDisjoint | internal/services/image_processor/image_processor.go:90-142 | the local keys are not overwritten by the Python branch |
| Imaging.MetadataOf | internal/services/image_processor/image_processor.go:144-153 | metadata records the file name, content type and size exactly when they are non-empty or positive |
| Imaging.AddHuMoments | internal/services/image_processor/image_processor.go:109-111 | hu_moment_i holds the i-th moment, counting from 1, and earlier keys keep their values |
| Imaging.Total | internal/services/image_processor/image_processor.go:121-124 | the accumulation loop computes the sum of the list |
| Imaging.AddContour | internal/services/image_processor/image_processor.go:113-115 | the contour area, contour length and LBP uniformity are copied as they are |
| Imaging.AddFiringPins | internal/services/image_processor/image_processor.go:117-126 | firing_pin_count is the number of marks, and the mean radius is added only when there is a mark |
| Imaging.AddStriations | internal/services/image_processor/image_processor.go:128-142 | striation_count is the number of patterns, and the three means are added only when there is a pattern |
| Imaging.AddMarks | internal/services/image_processor/image_processor.go:113-142 | contour area, contour length and LBP uniformity as given; the firing-pin and striation counts; the mean radius and the three striation means exactly when there is a mark; other keys are kept |
| Imaging.AddPythonFeatures | internal/services/image_processor/image_processor.go:108-153 | the key set is the local keys plus the Python keys; the local values are kept; hu_moment_i holds the i-th moment; every contour, count and mean value as in AddMarks |
| Imaging.ExtractFeatures | internal/services/image_processor/image_processor.go:80-157 | without the Python service only the local keys and no metadata; a failed temporary save or Python error fails; otherwise the Python key set, the metadata rule, the moment, contour, count and mean values; every success holds the five local values of the image |
| Imaging.SobelOperator | internal/services/image_processor/image_processor.go:199-215 | the loop computes the two fixed-kernel 3×3 convolutions over the red channel, each within ±1020 |
| Imaging.SobelUnfold | internal/services/image_processor/image_processor.go:202-212 | the kernel loop equals the written-out gradient sums |
| Imaging.SobelUniform | internal/services/image_processor/image_processor.go:199-215 | a uniform neighbourhood gives gradient (0, 0), since each kernel's weights sum to 0 |
| Imaging.DetectEdges | internal/services/image_processor/image_processor.go:178-196 | the edge map has the image's size; border rows and columns stay 0; an interior pixel is 255 exactly when the gradient magnitude exceeds the threshold |
| Imaging.DetectEdgesRow | internal/services/image_processor/image_processor.go:183-192 | one pass of the column loop writes the level of every interior pixel of its row and nothing else |
| Imaging.EdgesAboveStep | internal/services/image_processor/image_processor.go:182-193 | finishing a row adds that row's interior levels to the buffer and leaves its border columns 0 |
| Imaging.EdgesAboveDone | internal/services/image_processor/image_processor.go:182-195 | after the last interior row every pixel holds its level, the border rows 0 |
| Imaging.UniformNoEdge | internal/services/image_processor/image_processor.go:178-215 | no interior pixel with a uniform neighbourhood is marked, for any non-negative threshold |
| Pipeline.BandRows | internal/services/image_processor/optimized_processor.go:137-147 | band i spans the full width and rows [i·rh, (i+1)·rh), with rh = height / n, and the last band ends at the height |
| Pipeline.BandsCover | internal/services/image_processor/optimized_processor.go:136-147 | every row of the image lies in some band |
| Pipeline.BandsDisjoint | internal/services/image_processor/optimized_processor.go:136-147 | no row lies in two different bands |
| Pipeline.BandsInside | internal/services/image_processor/optimized_processor.go:136-147 | every row of a band is a row of the image |
| Pipeline.BandsPartition | internal/services/image_processor/optimized_processor.go:136-147 | a row is in the image exactly when it is in some band, and then in exactly one |
| Pipeline.SubmitJobs | internal/services/image_processor/optimized_processor.go:140-153 | the submission loop sends n jobs, job i holding band i and job id i |
| Pipeline.HorizontalPairsAt | internal/services/image_processor/optimized_processor.go:206-208 | each position contributes one pair: its grey level and its right neighbour's |
| Imaging.BumpCounts | internal/services/image_processor/image_processor.go:281 | one increment of the table adds one occurrence of the pair to the bag it counts |
| Pipeline.CountHorizontalRow | internal/services/image_processor/optimized_processor.go:205-209 | the column loop adds the pairs of one row |
| Pipeline.CountHorizontalPairs | internal/services/image_processor/optimized_processor.go:200-210 | the loops build the table of horizontal pairs over [Min.X, Max.X−1) × [Min.Y, Max.Y−1), holding (W−1)·(H−1) counts |
| Pipeline.HorizontalTotal | internal/services/image_processor/optimized_processor.go:204-214 | the table holds (W−1)·(H−1) counts, and is empty exactly when that is 0 |
| Pipeline.CalculateGLCMFeaturesOptimized | internal/services/image_processor/optimized_processor.go:199-221 | an empty table gives [0, 0, 0]; otherwise contrast ≥ 0 and energy and homogeneity in (0, 1] |
| Pipeline.BackgroundNeighbour | internal/services/image_processor/optimized_processor.go:270-282 | the neighbour scan is true exactly when some listed neighbour inside the region is not foreground |
| Pipeline.IsEdgePixelOptimized | internal/services/image_processor/optimized_processor.go:268-284 | a pixel is an edge exactly when one of its 8 neighbours inside the region is not foreground (the pixel itself is not tested) |
| Pipeline.FourEdgeIsEightEdge | internal/services/image_processor/optimized_processor.go:268-284 | an interior 4-neighbour edge is also an 8-neighbour edge |
| Pipeline.DiagonalOnlyEdge | internal/services/image_processor/optimized_processor.go:268-284 | a pixel whose only background neighbour is diagonal is an edge here but not for the whole-image rule |
| Pipeline.BorderOnlyEdge | internal/services/image_processor/optimized_processor.go:268-284 | a foreground pixel whose background lies only outside the region is an edge for the whole-image rule but not here |
| Pipeline.ScanShape | internal/services/image_processor/optimized_processor.go:225-252 | the single pass counts the foreground area, the 8-neighbour edge perimeter (≤ area) and the bounding box |
| Pipeline.ScanShapeRow | internal/services/image_processor/optimized_processor.go:230-250 | the column loop adds one row's foreground and edge pixels and widens the box by each foreground pixel of the row |
| Pipeline.CalculateShapeFeaturesOptimized | internal/services/image_processor/optimized_processor.go:224-265 | no perimeter (or no area) gives [0, 0]; otherwise circularity is positive and the aspect ratio, width over max(height, 1), is in [0, region width) |
| Pipeline.AspectBelowWidth | internal/services/image_processor/optimized_processor.go:260-262 | the aspect ratio of a box inside the region is in [0, region width) |
| Pipeline.StoreNamed | internal/services/image_processor/optimized_processor.go:176-188 | the naming loops store value i under name i for as many values as there are, and keep other keys |
| Pipeline.StoredFive | internal/services/image_processor/optimized_processor.go:172-188 | a worker's map is exactly the five named texture and shape values |
| Pipeline.Worker | internal/services/image_processor/optimized_processor.go:170-196 | a worker's result holds exactly the five region keys with the band's values |
| Pipeline.FirstError | internal/services/image_processor/optimized_processor.go:157-161 | the first arriving result with an error is found, and none before it has one |
| Pipeline.CollectResults | internal/services/image_processor/optimized_processor.go:156-163 | the first error aborts with that error; otherwise slot j holds the features of job j |
| Pipeline.SlotForFound | internal/services/image_processor/optimized_processor.go:162 | with distinct job ids, the slot of job j holds that job's features |
| Pipeline.ReassemblyIgnoresOrder | internal/services/image_processor/optimized_processor.go:156-163 | the reassembled slots do not depend on the order in which results arrive |
| Pipeline.AccumulateMeans | internal/services/image_processor/optimized_processor.go:292-296 | the accumulated map has every key of any region, each holding its sum over regions divided by the number of regions |
| Pipeline.AddRegion | internal/services/image_processor/optimized_processor.go:293-295 | adding one region adds each of its values divided by the number of regions |
| Pipeline.CombineRegionFeatures | internal/services/image_processor/optimized_processor.go:287-305 | each region key holds its mean over the regions, plus image_width, image_height and image_area = Dx·Dy |
| Pipeline.KeyUnionOfSame | internal/services/image_processor/optimized_processor.go:287-296 | regions with one key set merge into that key set |
| Pipeline.RunJobs | internal/services/image_processor/optimized_processor.go:170-196 | running the jobs gives, for each job id, the features of its band and no error |
| Pipeline.Arrive | internal/services/image_processor/optimized_processor.go:156-163 | whatever the arrival order, slot j holds job j's features |
| Pipeline.ComputeBands | internal/services/image_processor/optimized_processor.go:136-163 | submission, workers and collection produce the per-band feature maps in job order |
| Pipeline.ExtractLocalFeaturesParallel | internal/services/image_processor/optimized_processor.go:130-167 | the result holds exactly the five region keys, each the mean over the bands, plus the three image keys |
| Pipeline.RegionMeans | internal/services/image_processor/optimized_processor.go:287-305 | merged worker maps have exactly the region keys and the image keys |
| Pipeline.KeyKindsApart | internal/services/image_processor/optimized_processor.go:176-188 | the region keys and the image keys are disjoint |
| Pipeline.Fresh | internal/services/image_processor/optimized_processor.go:344-360 | a cached value is fresh exactly when present with age ≤ TTL |
| Pipeline.FeatureCache.constructor | internal/services/image_processor/optimized_processor.go:61-64 | the feature cache starts empty with a 5 minute TTL |
| Pipeline.FeatureCache.Get | internal/services/image_processor/optimized_processor.go:344-360 | a fresh entry is returned unchanged; an absent one misses; an expired one is deleted and misses |
| Pipeline.FeatureCache.Set | internal/services/image_processor/optimized_processor.go:362-366 | set replaces the entry for the key |
| Pipeline.FreshAfterSet | internal/services/image_processor/optimized_processor.go:344-366 | after set the key is fresh exactly while the stored timestamp is within the TTL, and other keys are unaffected |
| Pipeline.ExpiredStaysMissing | internal/services/image_processor/optimized_processor.go:354-357 | a key that missed stays missing later, since the miss deleted it |
| Pipeline.TrimTrailingSlashes | internal/services/image_processor/optimized_processor.go:369 | trailing slashes are removed from the path, and only those |
| Pipeline.AfterLastSlash | internal/services/image_processor/optimized_processor.go:369 | the text after the last slash contains no slash and is a suffix |
| Pipeline.FilepathBase | internal/services/image_processor/optimized_processor.go:369 | filepath.Base is non-empty, and is "/" or contains no slash |
| Pipeline.BaseOfJoined | internal/services/image_processor/optimized_processor.go:369 | the base of dir/name is name |
| Pipeline.CacheKeyCollision | internal/services/image_processor/optimized_processor.go:368-370 | equal file names in different directories with equal sizes give the same key |
| Pipeline.CacheKeyNames | internal/services/image_processor/optimized_processor.go:368-370 | different base names give different keys |
| Pipeline.SplitAtX | internal/services/image_processor/optimized_processor.go:369 | digits before an "x" fix the split, so the width and height parts are recovered |
| Pipeline.CacheKeySizes | internal/services/image_processor/optimized_processor.go:368-370 | the same path at different sizes gives different keys |
| Pipeline.AdvancedOf | internal/services/image_processor/optimized_processor.go:107-117 | the advanced map is non-empty, with the six Python keys, exactly when the service is present, the temporary file is saved and the reply is a non-nil success |
| Pipeline.OptimizedImageProcessor.constructor | internal/services/image_processor/optimized_processor.go:60-83 | the processor starts with an empty feature cache with the 5 minute TTL |
| Pipeline.OptimizedImageProcessor.ExtractFeaturesOptimized | internal/services/image_processor/optimized_processor.go:86-127 | a fresh cache hit returns the stored pair and changes nothing; otherwise the band means and the advanced map are computed, and exactly that pair is stored under the key |
| Pipeline.OptimizedImageProcessor.ExtractUnderKey | internal/services/image_processor/optimized_processor.go:97-126 | under a generated key: a fresh hit is returned unchanged, a miss (which deletes an expired entry) is computed and stored |
| Pipeline.OptimizedImageProcessor.ExtractAndStore | internal/services/image_processor/optimized_processor.go:101-124 | the miss path yields the band means and the advanced map, and stores exactly that pair under the key |
| Comparison.BelowIrreflexive | internal/services/comparison/advanced_comparison.go:188-197 | the byte-wise string order used by sort.Strings never places a string before itself |
| Comparison.BelowAsymmetric | internal/services/comparison/advanced_comparison.go:188-197 | if a sorts before b, b does not sort before a |
| Comparison.BelowTransitive | internal/services/comparison/advanced_comparison.go:188-197 | the string order is transitive |
| Comparison.BelowTotal | internal/services/comparison/advanced_comparison.go:188-197 | any two distinct strings are ordered one way or the other |
| Comparison.InsertFacts | internal/services/comparison/advanced_comparison.go:188-197 | inserting a new name into a strictly increasing list keeps it strictly increasing and adds exactly that name |
| Comparison.IncreasingUnique | internal/services/comparison/advanced_comparison.go:188-197 | two strictly increasing lists with the same members are equal, so a sorted result is determined by its set of names whatever the map iteration order |
| Comparison.SortedKeys | internal/services/comparison/advanced_comparison.go:188-197 | every finite set of names has a strictly increasing listing holding exactly its members |
| Comparison.Scale | internal/services/comparison/advanced_comparison.go:358-374 | the divisor is positive (one when both values are below 1e-9 in magnitude) and at least half the absolute difference |
| Comparison.RelDiffBounds | internal/services/comparison/advanced_comparison.go:377-397 | the relative difference lies in [0, 2], is zero exactly when the values are equal, and is symmetric |
| Comparison.SimilarityBounds | internal/services/comparison/advanced_comparison.go:358-374 | a per-feature score lies in [-1, 1], is one exactly when the values are equal, and is symmetric |
| Comparison.FeatureWeightOfMarks | internal/services/comparison/advanced_comparison.go:449-475 | a striation, firing-pin, breech-face, ejector or extractor name gets that group's weight, checked in that order |
| Comparison.FeatureWeightOfGeometryTexture | internal/services/comparison/advanced_comparison.go:449-475 | a geometric or texture name not caught earlier gets that group's weight |
| Comparison.FeatureWeightOfColor | internal/services/comparison/advanced_comparison.go:449-475 | a colour name not caught earlier gets the colour weight |
| Comparison.FeatureWeightOfShape | internal/services/comparison/advanced_comparison.go:449-475 | a shape name not caught earlier gets the shape weight |
| Comparison.FeatureWeightOfContour | internal/services/comparison/advanced_comparison.go:449-475 | a contour name not caught earlier gets the contour weight |
| Comparison.FeatureWeightExamples | internal/services/comparison/advanced_comparison.go:449-475 | "circularity" takes the shape weight and a name of no group, such as "glcm_contrast", takes 1.0 |
| Comparison.WeightNonNegative | internal/services/comparison/advanced_comparison.go:449-475 | with non-negative group weights every feature weight is non-negative |
| Comparison.WeightsNonNegative | internal/services/comparison/advanced_comparison.go:449-475 | the same for the weight function as a whole |
| Comparison.GetCommonFeatures | internal/services/comparison/advanced_comparison.go:188-197 | the result is sorted without repeats and holds exactly the names present in both maps |
| Comparison.PrepareVectors | internal/services/comparison/advanced_comparison.go:200-210 | both vectors have one entry per requested name, holding that name's value in each map (zero when absent) |
| Comparison.CalculateFeatureScores | internal/services/comparison/advanced_comparison.go:358-374 | scores are keyed by exactly the shared names, each the similarity of the two values and within [-1, 1] |
| Comparison.IdentifyCriticalFeatures | internal/services/comparison/advanced_comparison.go:377-397 | the result is sorted and holds exactly the shared names whose relative difference exceeds 0.3; identical maps have none |
| Comparison.CalculateWeightedSimilarity | internal/services/comparison/advanced_comparison.go:325-355 | the result is the weighted average of the shared scores over the total shared weight (zero when that weight is zero) |
| Comparison.WeightedAverageRange | internal/services/comparison/advanced_comparison.go:325-355 | with non-negative weights the weighted average lies in [-1, 1] |
| Comparison.WeightedSimilarityRange | internal/services/comparison/advanced_comparison.go:325-355 | with non-negative group weights the weighted similarity lies in [-1, 1] |
| Comparison.WeightedAverageSelf | internal/services/comparison/advanced_comparison.go:325-355 | a map compared with itself scores exactly one when its total weight is non-zero |
| Comparison.WeightedAverageSymmetric | internal/services/comparison/advanced_comparison.go:325-355 | the weighted similarity does not depend on which map comes first |
| Comparison.AllFeatures | internal/services/comparison/advanced_comparison.go:290-322 | the union loop collects exactly the names of either map |
| Comparison.SharedSimilaritySum | internal/services/comparison/advanced_comparison.go:290-322 | the intersection loop sums the similarity of exactly the shared names |
| Comparison.CalculateJaccardIndex | internal/services/comparison/advanced_comparison.go:290-322 | the result is the shared-similarity sum over the size of the union, zero when both maps are empty |
| Comparison.JaccardRange | internal/services/comparison/advanced_comparison.go:290-322 | the weighted Jaccard index lies in [-1, 1] |
| Comparison.JaccardSelf | internal/services/comparison/advanced_comparison.go:290-322 | a non-empty map compared with itself has Jaccard index one |
| Comparison.JaccardSymmetric | internal/services/comparison/advanced_comparison.go:290-322 | the Jaccard index is symmetric |
| Comparison.DiffSumsZero | internal/services/comparison/advanced_comparison.go:240-266 | the absolute and squared difference sums are non-negative; the absolute sum is zero exactly for equal vectors and the squared sum is zero for them |
| Comparison.DotSymmetric | internal/services/comparison/advanced_comparison.go:269-287 | the dot product is symmetric |
| Comparison.DotSelfNonneg | internal/services/comparison/advanced_comparison.go:269-287 | a vector's dot product with itself is non-negative |
| Comparison.CalculateManhattanDistance | internal/services/comparison/advanced_comparison.go:255-266 | vectors of different length give +Inf; otherwise the sum of absolute differences, non-negative and zero exactly for equal vectors |
| Comparison.CalculateEuclideanDistance | internal/services/comparison/advanced_comparison.go:240-252 | vectors of different length give +Inf; otherwise the root of the squared-difference sum, which is non-negative and zero for equal vectors |
| Comparison.CalculateCosineSimilarity | internal/services/comparison/advanced_comparison.go:269-287 | the result is the cosine of the two vectors, zero for different lengths, empty vectors or a zero norm |
| Comparison.CosineSymmetric | internal/services/comparison/advanced_comparison.go:269-287 | cosine similarity is symmetric |
| Comparison.CosineSelf | internal/services/comparison/advanced_comparison.go:269-287 | a non-zero vector has cosine one with itself |
| Comparison.CalculateCorrelation | internal/services/comparison/advanced_comparison.go:213-237 | the result is Pearson's coefficient from the running sums, zero for different lengths, empty vectors or a zero denominator |
| Comparison.CorrelationSymmetric | internal/services/comparison/advanced_comparison.go:213-237 | the correlation is symmetric |
| Comparison.AbsDiffSymmetric | internal/services/comparison/advanced_comparison.go:240-266 | both difference sums are symmetric |
| Comparison.CalculateStatisticalMetrics | internal/services/comparison/advanced_comparison.go:132-160 | all five metrics are zero without shared names; otherwise correlation, distances and cosine are computed over the shared names in sorted order and the Jaccard index over the whole maps |
| Comparison.MetricsSymmetric | internal/services/comparison/advanced_comparison.go:132-160 | swapping the maps leaves every statistical metric unchanged |
| Comparison.MetricsSelf | internal/services/comparison/advanced_comparison.go:132-160 | a non-empty map compared with itself has Manhattan distance zero and Jaccard index one |
| Comparison.AnalyzeFeatureGroup | internal/services/comparison/advanced_comparison.go:545-571 | the score is the mean similarity over the group names present in both maps, zero when none is |
| Comparison.GroupTotalsBounds | internal/services/comparison/advanced_comparison.go:545-571 | the count of present names is at most the group size, the total lies within plus or minus that count, and the count is zero exactly when no name is shared |
| Comparison.GroupScoreRange | internal/services/comparison/advanced_comparison.go:545-571 | a group score lies in [-1, 1] and is zero when no group name is shared |
| Comparison.GroupTotalsSelf | internal/services/comparison/advanced_comparison.go:545-571 | comparing a map with itself, every present name contributes exactly one |
| Comparison.GroupScoreSelf | internal/services/comparison/advanced_comparison.go:545-571 | a map compared with itself scores one on any group it has a name of |
| Comparison.WeightedMeanUnit | internal/services/comparison/advanced_comparison.go:574-589 | a weighted mean of five values in [-1, 1] with non-negative weights stays in [-1, 1] |
| Comparison.WeightedMeanPerfect | internal/services/comparison/advanced_comparison.go:574-589 | five perfect scores average to one whenever the weights do not sum to zero |
| Comparison.OverallBallisticScoreRange | internal/services/comparison/advanced_comparison.go:574-589 | with non-negative weights and indicators in [-1, 1] the overall ballistic score is in [-1, 1] |
| Comparison.OverallBallisticScorePerfect | internal/services/comparison/advanced_comparison.go:574-589 | five perfect indicators give an overall score of one |
| Comparison.CalculateBallisticIndicators | internal/services/comparison/advanced_comparison.go:163-185 | each indicator is the group score over its fixed feature list, and the overall score their weighted mean |
| Comparison.IndicatorsRange | internal/services/comparison/advanced_comparison.go:163-185 | with non-negative weights every indicator and the overall score lie in [-1, 1] |
| Comparison.CalculateAdvancedConfidence | internal/services/comparison/advanced_comparison.go:400-420 | the confidence lies in [0, 1] and equals the raw weighted combination whenever that is already in range |
| Comparison.ConfidenceCriticalPenalty | internal/services/comparison/advanced_comparison.go:400-420 | more critical features never raise the confidence |
| Comparison.ConfidenceBallisticMonotone | internal/services/comparison/advanced_comparison.go:400-420 | a higher overall ballistic score never lowers the confidence |
| Comparison.CriteriaMet | internal/services/comparison/advanced_comparison.go:423-446 | at most four criteria can be met |
| Comparison.DetermineMatch | internal/services/comparison/advanced_comparison.go:423-446 | a match is declared exactly when at least three of the four criteria hold |
| Comparison.CompareAdvanced | internal/services/comparison/advanced_comparison.go:93-129 | the result carries the metrics, indicators, weighted similarity, per-feature scores and sorted critical features of the two maps, the confidence derived from them in [0, 1], and the match decision derived from all of these |
| Detector.FiringPinScore | internal/services/ballistic_detector/detector.go:142-171 | the firing-pin score lies in [0, 1] and is positive exactly when some firing-pin evidence is recorded |
| Detector.AnalyzeFiringPinCharacteristics | internal/services/ballistic_detector/detector.go:142-171 | returns the firing-pin score and appends exactly the firing-pin evidence to the caller's list |
| Detector.StriationScore | internal/services/ballistic_detector/detector.go:174-202 | the striation score lies in [0, 1] and is positive exactly when some striation evidence is recorded |
| Detector.AnalyzeStriationCharacteristics | internal/services/ballistic_detector/detector.go:174-202 | returns the striation score and appends exactly the striation evidence |
| Detector.BreechFaceScore | internal/services/ballistic_detector/detector.go:205-225 | the breech-face score lies in [0, 1] and is positive exactly when some breech-face evidence is recorded |
| Detector.AnalyzeBreechFaceCharacteristics | internal/services/ballistic_detector/detector.go:205-225 | returns the breech-face score and appends exactly the breech-face evidence |
| Detector.ProjectileSizeScore | internal/services/ballistic_detector/detector.go:365-385 | zero without a contour area; otherwise 0.8 below 500, 0.9 above 2000 and 0.7 in between |
| Detector.AnalyzeProjectileSize | internal/services/ballistic_detector/detector.go:365-385 | returns the size score and appends the size evidence |
| Detector.RiflingScore | internal/services/ballistic_detector/detector.go:388-405 | 0.8 exactly for an angle strictly between 10 and 30, 0.9 exactly above 30, zero otherwise |
| Detector.AnalyzeRiflingPattern | internal/services/ballistic_detector/detector.go:388-405 | returns the rifling score and appends the rifling evidence |
| Detector.StriationDensityScore | internal/services/ballistic_detector/detector.go:408-414 | zero without a striation count; the count over 50 up to 50, capped at one, and non-negative for a non-negative count |
| Detector.AnalyzeStriationDensity | internal/services/ballistic_detector/detector.go:408-414 | returns the density score and appends the density evidence |
| Detector.CaliberEvidencePresence | internal/services/ballistic_detector/detector.go:365-414 | each caliber analysis records evidence exactly when its feature is present, and the size score is positive exactly then |
| Detector.Points | internal/services/ballistic_detector/detector.go:228-340 | a rule contributes its points when its condition holds and nothing otherwise |
| Detector.WeaponScores | internal/services/ballistic_detector/detector.go:236-340 | exactly the five weapon classes are scored, each within [0, 1], and "Indeterminado" is never a class |
| Detector.CaliberPoints | internal/services/ballistic_detector/detector.go:432-585 | one caliber's points from its area, radius, count, angle and texture rules lie in [0, 1] |
| Detector.CaliberScores | internal/services/ballistic_detector/detector.go:432-585 | exactly the eight calibers are scored, each within [0, 1] |
| Detector.TopScoreUnique | internal/services/ballistic_detector/detector.go:343-351 | the top score of a score map is unique |
| Detector.MaxOverFacts | internal/services/ballistic_detector/detector.go:343-351 | the maximum over a set of classes is non-negative, bounds every score, and is attained when positive |
| Detector.TopScore | internal/services/ballistic_detector/detector.go:343-351 | every score map has a top score |
| Detector.FinalConfidence | internal/services/ballistic_detector/detector.go:353-361 | the confidence reported is never above one |
| Detector.BestScore | internal/services/ballistic_detector/detector.go:343-351 | the argmax loop, in any map order, ends with the top score and "Indeterminado" exactly when no score is positive, and otherwise a class holding that score |
| Detector.Decide | internal/services/ballistic_detector/detector.go:343-361 | the label and confidence form a decision: confidence from top score times mean, damped below the threshold; a class is named exactly when the top is positive and the product reaches the threshold |
| Detector.TotalScore | internal/services/ballistic_detector/detector.go:230-234 | the loop sums the indicator values |
| Detector.ClassifyWeaponType | internal/services/ballistic_detector/detector.go:228-362 | the weapon decision uses threshold 0.4 and damping 0.7 over the weapon scores and the mean indicator |
| Detector.ClassifyCaliber | internal/services/ballistic_detector/detector.go:417-607 | the caliber decision uses threshold 0.35 and damping 0.6 over the caliber scores and the mean indicator |
| Detector.DecisionLabelUnique | internal/services/ballistic_detector/detector.go:343-361 | when the top score is held by one class, the decision is the same whatever order the map is visited in |
| Detector.FinalConfidenceUnit | internal/services/ballistic_detector/detector.go:353-361 | with top score, mean and damping in [0, 1] the confidence lies in [0, 1] |
| Detector.BelowThresholdUndetermined | internal/services/ballistic_detector/detector.go:353-361 | a product below the threshold yields "Indeterminado" with the damped confidence |
| Detector.MeanOfThree | internal/services/ballistic_detector/detector.go:230-234 | the mean of a three-entry map is the sum of the three over three |
| Detector.WeaponIndicators | internal/services/ballistic_detector/detector.go:44-60 | the weapon indicators are the three analysis scores under their keys, and the evidence is their three lists in order |
| Detector.DetectWeaponType | internal/services/ballistic_detector/detector.go:44-74 | the result carries those indicators and that evidence, no caliber, and the weapon decision over their mean, with confidence in [0, 1] |
| Detector.CaliberIndicators | internal/services/ballistic_detector/detector.go:77-93 | the caliber indicators are the size, rifling and density scores, with their evidence in order |
| Detector.DetectCaliber | internal/services/ballistic_detector/detector.go:77-107 | the result carries those indicators and evidence, no weapon type, and the caliber decision over their mean, with confidence at most one |
| Detector.NoFeaturesNoWeapon | internal/services/ballistic_detector/detector.go:44-74 | an empty feature map yields "Indeterminado" with confidence zero |
| Detector.FiringPinType | internal/services/ballistic_detector/detector.go:611-621 | small below radius 1.5, large above 3, medium in between, "Indeterminado" exactly when the radius is absent |
| Detector.BreechFacePattern | internal/services/ballistic_detector/detector.go:623-633 | rough above uniformity 0.1, medium above 0.05, smooth otherwise, "Indeterminado" exactly when absent |
| Detector.StriationPattern | internal/services/ballistic_detector/detector.go:635-647 | dense above 30 striations, moderate above 15, light above 5, minimal otherwise, "Indeterminado" exactly when absent |
| Detector.RiflingType | internal/services/ballistic_detector/detector.go:649-661 | pronounced above 45 degrees, standard above 20, soft above 5, minimal otherwise, "Indeterminado" exactly when absent |
| Detector.TwistDirection | internal/services/ballistic_detector/detector.go:663-672 | left above 90 degrees, right otherwise, "Indeterminado" exactly when the angle is absent |
| Detector.LandGrooveRatio | internal/services/ballistic_detector/detector.go:674-682 | zero unless both count and length are present; then the length divided by one more than the count |
| Detector.StriationDensity | internal/services/ballistic_detector/detector.go:684-691 | zero unless a count and a positive area are present; then 1000 times the count over the area |
| Detector.FiringPinDepth | internal/services/ballistic_detector/detector.go:693-699 | 0.3 times the firing-pin radius, zero when absent |
| Detector.DetectBallisticCharacteristics | internal/services/ballistic_detector/detector.go:110-139 | the characteristics are consistent: rifling type and twist are both undetermined or both known, and a non-zero density, ratio or depth implies the matching pattern is known |
| Classification.CalculateOverallScore | internal/services/classification/classifier.go:147-163 | with both confidences in [0, 1] the overall score lies in [0, 1] |
| Classification.OverallScoreBothUndetermined | internal/services/classification/classifier.go:147-163 | when both labels are "Indeterminado" the 0.6/0.4 blend is scaled by 0.7 and by 0.8 |
| Classification.OverallScoreDeterminedNotLower | internal/services/classification/classifier.go:147-163 | at equal confidences, a determined label never scores below an undetermined one |
| Classification.RecommendationsOf | internal/services/classification/classifier.go:166-210 | the recommendation list is never empty and holds at most seven messages |
| Classification.AppendConfidenceAdvice | internal/services/classification/classifier.go:169-175 | appends exactly the low-confidence messages, weapon before caliber |
| Classification.AppendCharacteristicAdvice | internal/services/classification/classifier.go:177-183 | appends exactly the characteristic messages, density before depth |
| Classification.AppendUndeterminedAdvice | internal/services/classification/classifier.go:185-191 | appends exactly the undetermined-label messages, weapon before caliber |
| Classification.AppendWeaponAdvice | internal/services/classification/classifier.go:193-203 | appends exactly the weapon-specific message for a pistol, rifle, revolver or shotgun, and nothing for other labels |
| Classification.GenerateRecommendations | internal/services/classification/classifier.go:166-210 | the messages come in the fixed order of the four groups, with the high-confidence message only when no other was added |
| Classification.AllConfidentExactly | internal/services/classification/classifier.go:166-210 | the high-confidence message appears exactly when no other check fires, and it is then the only message |
| Classification.UndeterminedWeaponAdvice | internal/services/classification/classifier.go:166-210 | an undetermined weapon always brings the compare-with-reference advice, and the confirm-weapon advice exactly when its confidence is below 0.7 |
| Classification.KeyInjective | internal/services/classification/classifier.go:238-253 | prefixing is injective, so distinct indicator names give distinct combined keys |
| Classification.CopyRenamed | internal/services/classification/classifier.go:238-253 | the copy loop keeps every existing entry, adds each indicator under its prefixed name with its value, adds nothing else, and grows the map by exactly the number of indicators |
| Classification.CombineIndicators | internal/services/classification/classifier.go:238-253 | every weapon indicator k appears as weapon_k and every caliber indicator as caliber_k with the same value, nothing else appears, and the size is the sum of the two sizes |
| Classification.CombineEvidence | internal/services/classification/classifier.go:255-259 | the weapon evidence followed by the caliber evidence |
| Classification.ClassifyBallistic | internal/services/classification/classifier.go:44-90 | fails exactly when saving fails, with the wrapped message; otherwise the result has the input analysis identifier, the detected characteristics, the weapon indicators, evidence and decision and the caliber indicators, evidence and decision computed from the features, the overall score derived from them, and the recommendations derived from them |
| Classification.GetClassificationHistory | internal/services/classification/classifier.go:93-97 | always succeeds with an empty list, whatever the limit |
| Handlers.CombineClassificationIndicators | internal/api/handlers.go:112-126 | the keys are exactly weapon_k for each weapon indicator and caliber_k for each caliber indicator, each with its original value |
| Handlers.CalculateAverageVariance | internal/api/handlers.go:145-156 | the result is the mean of the variances, zero for an empty map |
| Handlers.MeanBetween | internal/api/handlers.go:145-156 | the mean of a non-empty map lies between any lower and upper bound of its values |
| Handlers.KeyFeatureCount | internal/api/handlers.go:396-416 | at most three key features are counted, and none exactly when the Hu moment and striation density are absent and the contour area is not positive |
| Handlers.Completeness | internal/api/handlers.go:426-428 | the completeness factor lies in [0, 1] |
| Handlers.CalculateAnalysisConfidence | internal/api/handlers.go:384-438 | the confidence lies in [0, 1], and is zero for an empty map or without key features |
| Handlers.AnalysisConfidenceMonotone | internal/api/handlers.go:384-438 | with the same key features, more features never lower the confidence |
| Handlers.AnalysisConfidenceFullSample | internal/api/handlers.go:384-438 | a sample of at least 15 features with some key feature and non-negative quality terms reaches confidence 0.3 |
| Handlers.FeatureDiffsFacts | internal/api/handlers.go:515-523 | differences are keyed by exactly the shared names, are non-negative, are zero exactly for equal values, and do not depend on the order of the samples |
| Handlers.CalculateFeatureDiffs | internal/api/handlers.go:515-523 | the loop builds exactly that difference map |
| Handlers.IdentifyCriticalDifferences | internal/api/handlers.go:658-671 | the result lists without repeats exactly the critical shared names; its order, taken from map iteration, is left open |
| Handlers.CriticalMeansLargeDiff | internal/api/handlers.go:658-671 | a name is critical exactly when its difference exceeds the threshold, and a sample has no critical difference with itself |
| Handlers.AccumulateShared | internal/api/handlers.go:673-732 | the loop sums the weights (one when unset) and weighted scores over exactly the shared names and counts them |
| Handlers.CompareFeatures | internal/api/handlers.go:673-732 | the similarity is the weighted average of the per-feature scores over the shared names, with weight one for names without a weight |
| Handlers.CompareFeaturesFacts | internal/api/handlers.go:673-732 | with non-negative weights the similarity lies in [-1, 1], is symmetric, and is one for a sample against itself when its weight total is non-zero |
| Handlers.CompareFeaturesSelfUnweighted | internal/api/handlers.go:673-732 | without weights, a non-empty sample compared with itself scores exactly one |
| Handlers.FeaturePenalty | internal/api/handlers.go:562-574 | the feature-count penalty lies in [0.8, 1] |
| Handlers.VariancePenalty | internal/api/handlers.go:592-598 | the variance penalty lies in [0.9, 1] |
| Handlers.Clamp01 | internal/api/handlers.go:602-607 | the result is in [0, 1] and leaves values already there unchanged |
| Handlers.PenalisedConfidence | internal/api/handlers.go:558-610 | the penalised confidence lies in [0, 1] |
| Handlers.SquaredDeviations | internal/api/handlers.go:586-588 | the loop sums the squared deviations from the mean |
| Handlers.DiffVariance | internal/api/handlers.go:576-590 | the variance is that of the feature differences |
| Handlers.CalculateBasicConfidence | internal/api/handlers.go:558-610 | the confidence is the penalised similarity, in [0, 1] |
| Handlers.PenaltyBounds | internal/api/handlers.go:558-610 | the two penalties together remove at most 28 percent of the similarity |
| Handlers.BasicConfidenceBounds | internal/api/handlers.go:558-610 | for a similarity in [0, 1] the confidence lies between 0.72 times the similarity and the similarity |
| Handlers.BasicConfidenceConsistentSamples | internal/api/handlers.go:558-610 | two samples of at least ten features that agree on every shared name keep the similarity unpenalised |
| Handlers.WeightsMap | internal/api/handlers.go:613-655 | a weight record as a map holds exactly the ten category names |
| Handlers.ConvertRoundTrip | internal/api/handlers.go:613-655 | converting the map of a weight record gives the record back |
| Handlers.ConvertIgnoresOtherKeys | internal/api/handlers.go:613-655 | an empty map converts to the default weights, and names outside the ten categories are ignored |
| Handlers.ConvertSingleOverride | internal/api/handlers.go:613-655 | a map naming one category overrides that weight only |
| Handlers.ParsePagination | internal/api/handlers.go:737-754 | the limit is at least one and the offset non-negative; each is its default unless its text is a valid integer, and a positive limit or non-negative offset given as text is taken |
| Handlers.PaginationRoundTrip | internal/api/handlers.go:737-754 | any positive limit and non-negative offset within 64 bits, written in decimal, are parsed back unchanged |
| Storage.CommonFeatures | internal/storage/storage_service.go:203-209 | lists without repeats exactly the names present in both maps |
| Storage.CalculateCosineSimilarity | internal/storage/storage_service.go:202-234 | the loop's result is the dot product over the shared names divided by the product of the two un-rooted squared magnitudes, zero without shared names or with a zero magnitude |
| Storage.CosineSymmetric | internal/storage/storage_service.go:202-234 | the storage similarity does not depend on argument order |
| Storage.CosineSelf | internal/storage/storage_service.go:202-234 | because the magnitudes are not square-rooted, a vector against itself scores the inverse of its squared magnitude rather than one |
| Storage.CosineSelfExample | internal/storage/storage_service.go:202-234 | {"a": 2} scores 0.25 against itself |
| Storage.Matches | internal/storage/storage_service.go:181-185 | the matching analyses are drawn from the scanned ones, in order |
| Storage.MatchesMembers | internal/storage/storage_service.go:181-185 | an analysis matches exactly when it was scanned and its similarity reaches the threshold |
| Storage.MatchesPrefix | internal/storage/storage_service.go:181-191 | the matches of a prefix of the scan are a prefix of the matches of the whole scan |
| Storage.Take | internal/storage/storage_service.go:187-190 | the first n matches: a prefix of at most n elements, all of them when there are no more than n |
| Storage.ScanAnalyses | internal/storage/storage_service.go:180-191 | the loop stops after the whole list or once the limit is reached, never collects more than a positive limit, and with a limit below one stops after the first analysis |
| Storage.ScanResult | internal/storage/storage_service.go:180-191 | with a positive limit the scan yields exactly the first limit matches of the whole list |
| Storage.SearchSimilarAnalysis | internal/storage/storage_service.go:171-199 | a fetch failure is reported with the wrapped message; otherwise the result is the first limit matches in fetch order, or the matches among the first analysis when the limit is below one |
| Storage.SearchResultsMatch | internal/storage/storage_service.go:171-199 | every analysis returned was fetched and reaches the threshold |
| Storage.CopyStats | internal/storage/storage_service.go:252-253 | copying a stats map into the dashboard overwrites same-named keys with the copied values |
| Storage.GetDashboardStats | internal/storage/storage_service.go:237-265 | each failing sub-query is reported, in order, with its wrapped message and no stats; otherwise the stats are the total count overlaid with the comparison and then the classification statistics |
| Storage.DashboardStatsKeys | internal/storage/storage_service.go:237-265 | the dashboard holds total_analysis and every comparison and classification key; classification values win over comparison values, which win over the count |
| Middleware.NewCacheMiddleware | internal/middleware/cache_middleware.go:51-68 | a given configuration is kept as is; without one the defaults are a 5-minute TTL, a 10 MiB body limit, caching enabled, the analyze, compare and classify routes, and the Authorization, Cookie and Set-Cookie headers ignored |
| Middleware.ShouldCache | internal/middleware/cache_middleware.go:106-121 | a request is cacheable exactly when its method is GET or POST and its path starts with some configured route |
| Middleware.RouteMatchesExtends | internal/middleware/cache_middleware.go:106-121 | a path that matches a route still matches when extended |
| Middleware.DefaultRoutes | internal/middleware/cache_middleware.go:106-121 | with the defaults, /api/analyze/42 is cacheable and /api/health is not |
| Middleware.ShouldCacheResponse | internal/middleware/cache_middleware.go:124-138 | a response is cacheable exactly when its body is within the size limit; the status code never rejects it |
| Middleware.EqualFoldEquivalence | internal/middleware/cache_middleware.go:175-182 | case-insensitive comparison is reflexive, symmetric and transitive |
| Middleware.ShouldIgnoreHeader | internal/middleware/cache_middleware.go:175-182 | a header is ignored exactly when it equals some configured name ignoring case |
| Middleware.IgnoredCaseInsensitive | internal/middleware/cache_middleware.go:175-182 | two spellings of a header differing only in case are ignored alike |
| Middleware.DefaultIgnoresCredentials | internal/middleware/cache_middleware.go:175-182 | with the defaults, "authorization" and "COOKIE" are ignored and "Accept" is kept |
| Middleware.FilterHeadersFacts | internal/middleware/cache_middleware.go:229-234 | the filtered headers are exactly the response headers that are not ignored, with their values unchanged, and filtering twice changes nothing |
| Middleware.CacheResponse | internal/middleware/cache_middleware.go:226-241 | the cached entry holds the status, the filtered headers, the body, the current time and the default TTL |
| Middleware.GetCachedResponse | internal/middleware/cache_middleware.go:185-205 | a hit exactly when a stored response is found whose age is at most its TTL, returning it; an expired response is deleted and missed; an absent key or a value of another type misses without deleting |
| Middleware.StoredResponseLifetime | internal/middleware/cache_middleware.go:185-241 | a response cached at time t is served up to and including t plus the default TTL, and deleted on the first lookup after that |
| Configuration.DefaultedFillsAndKeeps | internal/config/config.go:78-155 | after setDefaults every defaulted setting is present, the cache section exists, the cache, compression and Python switches are on, and every setting the file already gave is unchanged |
| Configuration.DefaultedEmpty | internal/config/config.go:78-155 | an empty configuration receives exactly the documented defaults: development, info, console, python3 with its script and environment, /tmp/balistica, 10 MiB, 300, 75, 0.0.0.0:8080, 0.05, 1000, and a cache at ./cache with 5 and 30 minute TTLs, 100 MB and a 10 minute sweep |
| Configuration.DefaultedNilCache | internal/config/config.go:135-154 | a missing cache section is allocated and then receives every cache default |
| Configuration.DefaultedFixpoint | internal/config/config.go:78-155 | setDefaults leaves a configuration unchanged exactly when it is already complete |
| Configuration.DefaultedIdempotent | internal/config/config.go:78-155 | applying setDefaults twice equals applying it once |
| Configuration.LoadedFacts | internal/config/config.go:55-75 | a loaded configuration is complete, has the file's Python timeout or 30 seconds when none is given, otherwise equals the defaulted file, and loading it again changes nothing |
| Configuration.SetAppDefaults | internal/config/config.go:80-82 | the application section after its defaulting step |
| Configuration.SetLoggingDefaults | internal/config/config.go:85-90 | the logging section after its defaulting steps |
| Configuration.SetPythonDefaults | internal/config/config.go:93-102 | the Python section after its defaulting steps, with Python forced on |
| Configuration.SetImagingDefaults | internal/config/config.go:105-116 | the imaging section after its defaulting steps |
| Configuration.SetAPIDefaults | internal/config/config.go:119-124 | the API section after its defaulting steps |
| Configuration.SetChromaDefaults | internal/config/config.go:127-132 | the colour-analysis section after its defaulting steps |
| Configuration.CacheConfig.constructor | internal/config/config.go:135-137 | a newly allocated cache section holds every field at its zero value |
| Configuration.CacheConfig.FromSettings | internal/config/config.go:55-68 | a cache section decoded from the file holds exactly the decoded settings |
| Configuration.CacheConfig.SetDefaults | internal/config/config.go:138-154 | the cache section is updated in place to its defaulted settings, with caching and compression forced on |
| Configuration.Config.constructor | internal/config/config.go:55-68 | a decoded configuration holds exactly the decoded values, with a fresh cache object when the file has a cache section |
| Configuration.Config.SetDefaults | internal/config/config.go:78-155 | the configuration is updated in place to its defaulted value; an existing cache object is kept and updated, a missing one is freshly allocated |
| Configuration.Load | internal/config/config.go:55-75 | a read failure and a parse failure are reported with their wrapped messages; otherwise a fresh configuration holding the loaded value |
| Models.Widen | internal/models/ballistic_analysis.go:13-18 | repeating a byte in both halves of a 16-bit value gives 257 times the byte, at most 0xFFFF, whose high byte is the original |
| Models.RGBA | internal/models/ballistic_analysis.go:13-18 | each colour channel is 257 times its byte and at most 0xFFFF, and alpha is 0xFFFF |
| Models.RGBARoundTrip | internal/models/ballistic_analysis.go:13-18 | shifting each channel right by eight and truncating to a byte recovers the colour |
| Models.RGBAInjective | internal/models/ballistic_analysis.go:13-18 | distinct colours give distinct channel values |
| Models.NewBallisticAnalysis | internal/models/ballistic_analysis.go:101-109 | a new analysis has no features, no colours, no classification, processor version 1.3.0, the given creation time and all other metadata empty |
| Models.NewCartridgeCase | internal/models/ballistic_analysis.go:111-120 | a new cartridge case has no identifier and all six mark maps allocated and empty |
| Pipeline.RegionFeatures | internal/services/image_processor/optimized_processor.go:170-196 | the features of one region are keyed by exactly the five region names |
| Pipeline.BandFeatures | internal/services/image_processor/optimized_processor.go:136-163 | one feature map per band, each keyed by exactly the five region names |
| Common.Atoi | internal/api/handlers.go:744-753 | text accepted as an integer starts with a digit or a sign and denotes a value within the signed 64-bit range |
| Common.AtoiRoundTrip | internal/api/handlers.go:744-753 | every signed 64-bit integer written in decimal is accepted back as itself |
| Common.NatToString | internal/api/handlers.go:744-753 | the decimal writing of a natural number is a non-empty digit string that starts with 0 only for zero |
| Common.DigitsRoundTrip | internal/api/handlers.go:744-753 | the digits of a natural number denote that number |
| Common.NatToStringInjective | internal/api/handlers.go:744-753 | distinct natural numbers have distinct decimal writings |

## Left out

- Cache.CacheService.Set: Go writes the disk tier in a goroutine and only logs its failure, so a read straight after `Set` may still miss on disk. The model completes the disk write before `Set` returns and discards its error.
- Concurrency: the worker goroutines and channels of the region pipeline are a sequential loop with the arrival order as a parameter. The mutexes of the caches and the ticker goroutine behind the periodic sweep are not modelled. Each sweep is one call at a given time.
- I/O and the clock: files, directories, SQLite, HTTP requests and responses, and `time.Now` are left out. Their outcomes are parameters: the clock value `now`, a read or decode result, a save error, a fetched list, a count or a statistics map.
- Foreign computations are parameters or abstract values:
  - the md5 keys of the cache service, the disk file names and the middleware keys;
  - the sizes that `json.Marshal` gives to cached values;
  - the luma weighting that turns a colour into a grey level;
  - the Python feature service, whose outcome is an optional result.
- Floating point: `float64` is exact `real`. Rounding, overflow to infinity and NaN arising from inexact arithmetic are not modelled. The divisions the source leaves unguarded in the image statistics yield the explicit `Inf`/`NaN` values of `Common.Float`.
- `math.Sqrt` and `math.Log` are function parameters, and `IsSqrt` states the only facts assumed of `sqrt`. The Sobel magnitude test `sqrt(m) > t` is the exact integer test `m > t * t` for a non-negative threshold. π is the decimal constant 3.141592653589793.
- Comparison.DiffSumsZero: states that the squared-difference sum is zero for equal vectors, but not the converse. The converse rests on a non-zero real square being strictly positive. The solver's real arithmetic does not carry that fact over to the square it unfolds from the sum's definition, so this step does not verify here. The absolute-difference sum does carry the full equivalence.
- Comparison.CalculateEuclideanDistance: inherits the same one-directional fact about the squared-difference sum.
- Handlers.CalculateAnalysisConfidence: the NaN and infinity guards are not modelled. They never fire, because the feature map it receives has already had every NaN and infinite value replaced by 0 (internal/api/handlers.go:259-266).
- Map iteration order is arbitrary: loops choose keys nondeterministically. Results that Go leaves in map order are specified by their contents only. This applies to `Handlers.IdentifyCriticalDifferences`, `Storage.CommonFeatures` and the argmax tie-break in `Detector.BestScore`.
- Evidence lines that Go formats with `%.0f` or `%.2f` are kept as a label plus the value, not as the formatted text.
- Detector.ClassifyWeaponType: requires a non-empty indicator map, where Go would divide by zero and get NaN. Every caller passes exactly three indicators.
- Detector.ClassifyCaliber: the same precondition and reason as `ClassifyWeaponType`.
- Storage.SearchSimilarAnalysis: the fetch of at most 1000 analyses is the repository's query, so the fetched list is a parameter and its length is not bounded.
- Cache.CacheService.constructor: always builds both tiers and assumes the cache directory can be created. In Go, a disabled service builds no tiers, but none of its operations touches them. The directory-creation error is not modelled.
- `CacheService.GenerateKey`, the disk tier's file paths and the disk tier's byte counting are not modelled; disk statistics take the byte total as a parameter.
- Classification service wrappers `GetClassificationByAnalysisID`, `SearchByWeaponType` and `SearchByCaliber` are not modelled. They only forward repository queries and wrap their errors.
- Middleware: `Handler`, `generateCacheKey`, `serveCachedResponse`, `GetStats`, `ClearCache`, the statistics and clear handlers, the response writer and the three key builders are not modelled. They are HTTP plumbing and md5 hashing around the modelled decisions.
- Middleware.EqualFold: case-insensitive header comparison folds ASCII letters only. Go's `strings.EqualFold` also folds other Unicode letters. Header names are ASCII.
- Configuration: only the settings that `setDefaults` and `Load` touch are modelled, plus the application name, version and server port. The database and security sections and the remaining fields are not modelled. Reading and YAML decoding are parameters.
- Imaging: the image filters of `Process` and the temporary file written for the Python service are not modelled. The Python service's Hu moments, contour and texture values arrive as a parameter. The colour analysis of the chroma service is not part of this model.
- Rectangles are assumed well formed (`Min <= Max`), as every decoded image's bounds are. The worker count is at least one, as `runtime.NumCPU` is.
